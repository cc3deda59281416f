/** What the learning engine's scores, averages and estimates mean for the observations behind them. */
module LearningLaws {
  import opened Common
  import opened Learning
  import opened LearningEngine

  // ---------- how alike two loads are ----------

  function Apart(x: real, y: real): real {
    if x >= y then x - y else y - x
  }

  /** One for equal readings, falling to zero at the given distance. */
  function Closeness(x: real, y: real, reach: real): real
    requires reach > 0.0
  {
    if Apart(x, y) >= reach then 0.0 else 1.0 - Apart(x, y) / reach
  }

  /** Few, some or many connections. */
  function Level(connections: int): int {
    if connections < 5 then 0 else if connections <= 20 then 1 else 2
  }

  lemma SameWidthOverlap(x: real, y: real, half: real)
    requires half == 5.0 || half == 100.0
    ensures RangeOverlap(Range(x - half, x + half), Range(y - half, y + half)) == Closeness(x, y, 2.0 * half)
  {
    var apart := Apart(x, y);
    if half == 5.0 {
      assert apart < 10.0 ==> Fraction(10.0 - apart, 10.0) == 1.0 - apart / 10.0;
    } else {
      assert apart < 200.0 ==> Fraction(200.0 - apart, 200.0) == 1.0 - apart / 200.0;
    }
  }

  /**
   * How alike two observed loads are: processor and memory count while less than ten points apart, latency
   * while less than 200 ms, together three quarters; the rest is a tenth each for the time of day and the
   * number of connections, and a twentieth for the day.
   */
  lemma LoadsAlike(t1: Telemetry, slot1: Slot, t2: Telemetry, slot2: Slot)
    requires slot1.timeOfDay != "any" && slot1.dayOfWeek != "any" && slot2.timeOfDay != "any" && slot2.dayOfWeek != "any"
    ensures MatchScore(ExtractConditions(t1, slot1), ExtractConditions(t2, slot2)) ==
            0.3 * Closeness(t1.cpu, t2.cpu, 10.0) + 0.25 * Closeness(t1.memory, t2.memory, 10.0)
            + 0.2 * Closeness(t1.latency, t2.latency, 200.0)
            + (if slot1.timeOfDay == slot2.timeOfDay then 0.1 else 0.0)
            + (if slot1.dayOfWeek == slot2.dayOfWeek then 0.05 else 0.0)
            + (if Level(t1.connections) == Level(t2.connections) then 0.1 else 0.0)
  {
    hide RangeOverlap, Closeness;
    SameWidthOverlap(t1.cpu, t2.cpu, 5.0);
    SameWidthOverlap(t1.memory, t2.memory, 5.0);
    SameWidthOverlap(t1.latency, t2.latency, 100.0);
  }

  /** The conditions of an observation lead back to what was observed. */
  lemma FeaturesAreReadings(t: Telemetry, slot: Slot)
    ensures FeaturesOf(ExtractConditions(t, slot)) == Features(t.cpu, t.memory, t.latency, t.connections as real)
  {
  }

  // ---------- the distance ----------

  /** Ten points of processor load are as far as twelve of memory, fifteen milliseconds of latency or thirty connections. */
  lemma DistanceUnits(f: Features, x: real)
    ensures var cpu := Distance(f, f.(cpu := f.cpu + 10.0 * x));
            && Distance(f, f.(memory := f.memory + 12.0 * x)) == cpu
            && Distance(f, f.(latency := f.latency + 15.0 * x)) == cpu
            && Distance(f, f.(connections := f.connections + 30.0 * x)) == cpu
            && cpu == 9.0 * Squared(x)
  {
    assert Squared(0.0) == 0.0;
    assert (f.cpu - (f.cpu + 10.0 * x)) * 0.3 == -3.0 * x;
    assert (f.memory - (f.memory + 12.0 * x)) * 0.25 == -3.0 * x;
    assert (f.latency - (f.latency + 15.0 * x)) * 0.2 == -3.0 * x;
    assert (f.connections - (f.connections + 30.0 * x)) * 0.1 == -3.0 * x;
  }

  /** The squared distance adds up over the features, each on its own. */
  lemma DistanceAddsUp(f: Features, g: Features)
    ensures Distance(f, g) ==
            Distance(f, f.(cpu := g.cpu)) + Distance(f, f.(memory := g.memory))
            + Distance(f, f.(latency := g.latency)) + Distance(f, f.(connections := g.connections))
    ensures Distance(f, g) == Distance(g, f) >= 0.0
  {
    assert Squared(0.0) == 0.0;
    SquaredEven((f.cpu - g.cpu) * 0.3);
    SquaredEven((f.memory - g.memory) * 0.25);
    SquaredEven((f.latency - g.latency) * 0.2);
    SquaredEven((f.connections - g.connections) * 0.1);
  }

  lemma SquaredEven(x: real)
    ensures Squared(x) == Squared(-x) >= 0.0
  {
  }

  // ---------- the prediction ----------

  /** The sum of the scores of the five nearest examples. */
  function Weight(r: seq<Example>): real
    requires |r| >= 5
  {
    r[0].score + r[1].score + r[2].score + r[3].score + r[4].score
  }

  /** Each of the five scores times a setting of its example. */
  function WeightedFive(r: seq<Example>, a: int, b: int, c: int, d: int, e: int): real
    requires |r| >= 5
  {
    r[0].score * a as real + r[1].score * b as real + r[2].score * c as real + r[3].score * d as real + r[4].score * e as real
  }

  function FetchSum(r: seq<Example>): real
    requires |r| >= 5
  {
    WeightedFive(r, r[0].config.fetch, r[1].config.fetch, r[2].config.fetch, r[3].config.fetch, r[4].config.fetch)
  }

  function PushSum(r: seq<Example>): real
    requires |r| >= 5
  {
    WeightedFive(r, r[0].config.push, r[1].config.push, r[2].config.push, r[3].config.push, r[4].config.push)
  }

  function BatchSum(r: seq<Example>): real
    requires |r| >= 5
  {
    WeightedFive(r, r[0].config.batch, r[1].config.batch, r[2].config.batch, r[3].config.batch, r[4].config.batch)
  }

  lemma FiveScores(r: seq<Example>)
    requires |r| >= 5
    ensures TotalScore(r[..5]) == Weight(r)
  {
    FirstScores(r, 1);
    FirstScores(r, 2);
    FirstScores(r, 3);
    FirstScores(r, 4);
    FirstScores(r, 5);
  }

  lemma FirstScores(r: seq<Example>, k: nat)
    requires 0 < k <= |r|
    ensures TotalScore(r[..k]) == TotalScore(r[..k - 1]) + r[k - 1].score
    ensures TotalScore(r[..0]) == 0.0
  {
    assert r[..k][..k - 1] == r[..k - 1];
  }

  lemma FiveWeighted(r: seq<Example>, setting: Config -> int)
    requires |r| >= 5
    ensures WeightedSum(r[..5], setting) ==
            WeightedFive(r, setting(r[0].config), setting(r[1].config), setting(r[2].config), setting(r[3].config), setting(r[4].config))
  {
    FirstWeighted(r, setting, 1);
    FirstWeighted(r, setting, 2);
    FirstWeighted(r, setting, 3);
    FirstWeighted(r, setting, 4);
    FirstWeighted(r, setting, 5);
  }

  lemma FirstWeighted(r: seq<Example>, setting: Config -> int, k: nat)
    requires 0 < k <= |r|
    ensures WeightedSum(r[..k], setting) == WeightedSum(r[..k - 1], setting) + r[k - 1].score * setting(r[k - 1].config) as real
    ensures WeightedSum(r[..0], setting) == 0.0
  {
    assert r[..k][..k - 1] == r[..k - 1];
  }

  /** The whole part of the quotient of two numbers that are not negative. */
  predicate IsWholePart(q: int, x: real, y: real) {
    Times(q as real, y) <= x < Times((q + 1) as real, y)
  }

  function Times(x: real, y: real): real {
    x * y
  }

  lemma QuotientWhole(x: real, y: real)
    requires x >= 0.0 && y > 0.0
    ensures IsWholePart(Truncated(x / y), x, y)
  {
    hide Times;
    var q := x / y;
    QuotientTimes(x, y);
    var w := Truncated(q);
    assert w as real <= q < (w + 1) as real;
    LessTimes(w as real, q, y);
    LessTimes(q, (w + 1) as real, y);
  }

  lemma QuotientTimes(x: real, y: real)
    requires x >= 0.0 && y > 0.0
    ensures x / y >= 0.0 && Times(x / y, y) == x
  {
  }

  lemma LessTimes(a: real, b: real, y: real)
    requires y > 0.0
    ensures a <= b ==> Times(a, y) <= Times(b, y)
    ensures a < b ==> Times(a, y) < Times(b, y)
  {
    assert (b - a) * y == b * y - a * y;
  }

  /**
   * What is predicted: nothing from fewer than ten examples, or if the five nearest have no weight; otherwise
   * the whole part of the mean setting of these five, weighted by their scores, where no score or setting is
   * negative.
   */
  lemma PredictionIsWeightedMean(r: seq<Example>)
    requires forall k :: 0 <= k < |r| && k < 5 ==>
               r[k].score >= 0.0 && r[k].config.fetch >= 0 && r[k].config.push >= 0 && r[k].config.batch >= 0
    ensures var p := Prediction(r);
            && (p.Some? <==> |r| >= 10 && Weight(r) > 0.0)
            && (p.Some? ==>
                  && IsWholePart(p.value.fetch, FetchSum(r), Weight(r))
                  && IsWholePart(p.value.push, PushSum(r), Weight(r))
                  && IsWholePart(p.value.batch, BatchSum(r), Weight(r))
                  && !p.value.backPressure && p.value.throttleDelay == 0 && p.value.maxQueue == 1000)
  {
    hide Truncated, TotalScore, WeightedSum, IsWholePart, WeightedFive;
    if |r| >= 10 {
      FiveScores(r);
      FiveWeighted(r, Fetch);
      FiveWeighted(r, Push);
      FiveWeighted(r, Batch);
      WeightedNonNegative(r);
      if Weight(r) > 0.0 {
        QuotientWhole(FetchSum(r), Weight(r));
        QuotientWhole(PushSum(r), Weight(r));
        QuotientWhole(BatchSum(r), Weight(r));
      }
    }
  }

  lemma WeightedNonNegative(r: seq<Example>)
    requires |r| >= 5
    requires forall k :: 0 <= k < 5 ==>
               r[k].score >= 0.0 && r[k].config.fetch >= 0 && r[k].config.push >= 0 && r[k].config.batch >= 0
    ensures FetchSum(r) >= 0.0 && PushSum(r) >= 0.0 && BatchSum(r) >= 0.0 && Weight(r) >= 0.0
  {
  }

  // ---------- learned patterns ----------

  /**
   * What reinforcement does: the first matching pattern keeps its conditions and configuration, is used once
   * more, moves three tenths of the way towards the score and gains a tenth of confidence, up to one; without a
   * match the event becomes a pattern of its own.  No other pattern changes.
   */
  lemma ReinforcementMeans(patterns: seq<Pattern>, event: LearningEvent)
    ensures var after := Reinforced(patterns, event);
            match FirstMatch(patterns, event.conditions)
            case Some(i) =>
              var p, q := patterns[i], after[i];
              && |after| == |patterns| && (forall k :: 0 <= k < |patterns| && k != i ==> after[k] == patterns[k])
              && q.conditions == p.conditions && q.configuration == p.configuration && q.usageCount == p.usageCount + 1
              && 10.0 * (q.effectiveness - p.effectiveness) == 3.0 * (event.score - p.effectiveness)
              && (p.confidence <= 1.0 ==> p.confidence <= q.confidence <= 1.0)
              && (q.confidence < 1.0 ==> q.confidence == p.confidence + 0.1)
            case None =>
              && |after| == |patterns| + 1 && after[..|patterns|] == patterns
              && after[|patterns|] == Pattern(event.conditions, event.configuration, event.score, 1, 0.5)
  {
    hide MatchScore;
  }

  lemma {:induction false} FirstMatchIsFirst(patterns: seq<Pattern>, c: Conditions)
    ensures var i := FirstMatch(patterns, c);
            i.Some? ==> forall k :: 0 <= k < i.value ==> MatchScore(patterns[k].conditions, c) < 0.8
  {
    hide MatchScore;
    if patterns != [] {
      FirstMatchIsFirst(patterns[..|patterns| - 1], c);
    }
  }

  /** Of too many patterns the least effective is dropped: none that stays is worse than it. */
  lemma WorstIsDropped(patterns: seq<Pattern>, event: LearningEvent, ranked: seq<Pattern>)
    requires Worthwhile(event) && FirstMatch(patterns, event.conditions).None? && |patterns| == 20
    requires Ranked(Reinforced(patterns, event), Ineffectiveness, ranked)
    ensures var after, all := PatternsAfter(patterns, event, ranked), Reinforced(patterns, event);
            && |after| == 20
            && exists dropped :: multiset(after) + multiset{dropped} == multiset(all)
                                 && forall p :: p in after ==> p.effectiveness >= dropped.effectiveness
  {
    hide MatchScore;
    RankedLength(Reinforced(patterns, event), Ineffectiveness, ranked);
    var dropped := ranked[20];
    assert ranked == ranked[..20] + [dropped];
    forall p | p in ranked[..20] ensures p.effectiveness >= dropped.effectiveness {
      var k :| 0 <= k < 20 && ranked[k] == p;
      assert Ineffectiveness(ranked[k]) <= Ineffectiveness(ranked[20]);
    }
  }

  // ---------- the accuracy ----------

  /** The mean fetch parallelism of the three nearest, cut to an integer, lies within one of the test's. */
  predicate WithinOne(ranked: seq<Example>, test: Example)
    requires |ranked| >= 3
  {
    var sum := ranked[0].config.fetch + ranked[1].config.fetch + ranked[2].config.fetch;
    3 * (test.config.fetch - 1) <= sum < 3 * (test.config.fetch + 2)
  }

  /** The tests that come out right, by their places. */
  function RightOnes(tests: seq<Example>, rankings: seq<seq<Example>>): set<nat>
    requires |rankings| == |tests| && forall ranked :: ranked in rankings ==> |ranked| >= 3
  {
    set i: nat | i < |tests| && WithinOne(rankings[i], tests[i])
  }

  lemma {:induction false} CorrectCounts(tests: seq<Example>, rankings: seq<seq<Example>>)
    requires |rankings| == |tests| && forall ranked :: ranked in rankings ==> |ranked| >= 3
    requires forall ranked, e :: ranked in rankings && e in ranked ==> e.config.fetch >= 0
    ensures Correct(tests, rankings) == |RightOnes(tests, rankings)|
  {
    if tests == [] {
      assert RightOnes(tests, rankings) == {};
    } else {
      hide WithinOne, Foretells, RightOnes;
      var n := |tests| - 1;
      CorrectCounts(tests[..n], rankings[..n]);
      assert rankings[n] in rankings;
      ForetellsWithinOne(rankings[n], tests[n]);
      OneMoreRight(tests, rankings);
    }
  }

  lemma ForetellsWithinOne(ranked: seq<Example>, test: Example)
    requires |ranked| >= 3 && forall e :: e in ranked ==> e.config.fetch >= 0
    ensures Foretells(ranked, test) <==> WithinOne(ranked, test)
  {
    assert ranked[0] in ranked && ranked[1] in ranked && ranked[2] in ranked;
  }

  lemma OneMoreRight(tests: seq<Example>, rankings: seq<seq<Example>>)
    requires |rankings| == |tests| > 0 && forall ranked :: ranked in rankings ==> |ranked| >= 3
    ensures var n := |tests| - 1;
            |RightOnes(tests, rankings)|
            == |RightOnes(tests[..n], rankings[..n])| + if WithinOne(rankings[n], tests[n]) then 1 else 0
  {
    hide WithinOne;
    var n := |tests| - 1;
    var before := RightOnes(tests[..n], rankings[..n]);
    assert RightOnes(tests, rankings) == if WithinOne(rankings[n], tests[n]) then before + {n} else before;
  }

  /**
   * The accuracy is a share: from twenty examples on, of the last fifth, those whose fetch parallelism lies within
   * one of the mean of their three nearest among the others.
   */
  lemma AccuracyIsShare(examples: seq<Example>, accuracy: real, rankings: seq<seq<Example>>)
    requires |examples| >= 20 && RanksTests(examples, rankings) && forall e :: e in examples ==> e.config.fetch >= 0
    ensures forall ranked :: ranked in rankings ==> |ranked| >= 3
    ensures var t := |examples| / 5;
            |rankings| == t && Accuracy(examples, accuracy, rankings) * t as real
                               == |RightOnes(examples[|examples| - t..], rankings)| as real
  {
    hide Correct, RightOnes, RanksTests, DistanceFrom, Share;
    var t := |examples| / 5;
    forall ranked | ranked in rankings
      ensures |ranked| >= 3 && forall e :: e in ranked ==> e.config.fetch >= 0
    {
      RankingHolds(examples, rankings, ranked);
    }
    RankingsMatch(examples, rankings);
    CorrectCounts(examples[|examples| - t..], rankings);
    var tests := examples[|examples| - t..];
    ShareTimes(Correct(tests, rankings), t);
  }

  lemma RankingsMatch(examples: seq<Example>, rankings: seq<seq<Example>>)
    requires RanksTests(examples, rankings)
    ensures |rankings| == |examples| / 5
  {
  }

  lemma RankingHolds(examples: seq<Example>, rankings: seq<seq<Example>>, ranked: seq<Example>)
    requires |examples| >= 20 && RanksTests(examples, rankings) && ranked in rankings
    requires forall e :: e in examples ==> e.config.fetch >= 0
    ensures |ranked| >= 3 && forall e :: e in ranked ==> e.config.fetch >= 0
  {
    var t := TestSize(examples);
    var train, tests := examples[..|examples| - t], examples[|examples| - t..];
    var i :| 0 <= i < t && rankings[i] == ranked;
    RankedLength(train, DistanceFrom(tests[i].features), ranked);
    forall e | e in ranked ensures e.config.fetch >= 0 {
      assert e in multiset(ranked) && e in multiset(train) && e in train;
    }
  }

  lemma ShareTimes(part: nat, whole: nat)
    requires part <= whole && whole > 0
    ensures Share(part, whole) * whole as real == part as real
  {
  }

  // ---------- what is remembered ----------

  /** One observation taught, with the rankings that learning from it needs. */
  datatype Lesson = Lesson(event: LearningEvent, ranked: seq<Pattern>, rankings: seq<seq<Example>>)

  /** What the engine knows after the lessons. */
  function Taught(lessons: seq<Lesson>): Knowledge {
    if lessons == [] then Knowledge([], [], [], 0.0)
    else
      var last := lessons[|lessons| - 1];
      Learned(Taught(lessons[..|lessons| - 1]), last.event, last.ranked, last.rankings)
  }

  function Latest<T>(s: seq<T>, n: nat): seq<T> {
    if |s| <= n then s else s[|s| - n..]
  }

  function EventsOf(lessons: seq<Lesson>): seq<LearningEvent> {
    if lessons == [] then [] else EventsOf(lessons[..|lessons| - 1]) + [lessons[|lessons| - 1].event]
  }

  function ExamplesOf(lessons: seq<Lesson>): (r: seq<Example>)
    ensures |r| == |lessons|
  {
    if lessons == [] then [] else ExamplesOf(lessons[..|lessons| - 1]) + [ExampleOf(lessons[|lessons| - 1].event)]
  }

  lemma CappedLatest<T>(s: seq<T>, x: T, n: nat)
    requires n > 0
    ensures Capped(Latest(s, n), x, n) == Latest(s + [x], n)
  {
  }

  /**
   * The engine remembers the latest thousand observations and five hundred examples, and estimates its accuracy
   * anew exactly when the examples it holds are a multiple of fifty, so with every lesson once they are five hundred.
   */
  lemma {:induction false} RemembersTheLatest(lessons: seq<Lesson>)
    ensures var k := Taught(lessons);
            && k.events == Latest(EventsOf(lessons), 1000) && k.examples == Latest(ExamplesOf(lessons), 500)
    ensures lessons != [] ==>
              var before, k, n := Taught(lessons[..|lessons| - 1]), Taught(lessons), |lessons|;
              k.accuracy == if n >= 500 || n % 50 == 0 then Accuracy(k.examples, before.accuracy, lessons[n - 1].rankings)
                            else before.accuracy
  {
    hide Accuracy, PatternsAfter, Capped, ExampleOf, Latest, Learned;
    if lessons != [] {
      var init, last := lessons[..|lessons| - 1], lessons[|lessons| - 1];
      RemembersTheLatest(init);
      LearnedAdds(Taught(init), last);
      CappedLatest(EventsOf(init), last.event, 1000);
      CappedLatest(ExamplesOf(init), ExampleOf(last.event), 500);
      LatestSize(ExamplesOf(lessons), 500);
    } else {
      NothingYet();
    }
  }

  lemma NothingYet()
    ensures Latest(EventsOf([]), 1000) == [] && Latest(ExamplesOf([]), 500) == []
  {
  }

  lemma LatestSize<T>(s: seq<T>, n: nat)
    ensures |Latest(s, n)| == if |s| <= n then |s| else n
  {
  }

  lemma LearnedAdds(k: Knowledge, l: Lesson)
    ensures var after := Learned(k, l.event, l.ranked, l.rankings);
            && after.events == Capped(k.events, l.event, 1000) && after.examples == Capped(k.examples, ExampleOf(l.event), 500)
            && after.accuracy == if |after.examples| % 50 == 0 then Accuracy(after.examples, k.accuracy, l.rankings) else k.accuracy
  {
    hide Accuracy, PatternsAfter, Capped, ExampleOf;
  }
}
