/** The learning engine's objects: what they hold, and the methods that change it. */
module LearningEngine {
  import opened Common
  import opened Learning

  const MAX_EXAMPLES := 500

  const MAX_EVENTS := 1000

  /** What the engine has learned. */
  datatype Knowledge = Knowledge(
    events: seq<LearningEvent>, patterns: seq<Pattern>, examples: seq<Example>, accuracy: real)

  /** The examples after one more, with the accuracy estimated anew at every fiftieth. */
  function WithExample(k: Knowledge, example: Example, rankings: seq<seq<Example>>): Knowledge {
    var examples := Capped(k.examples, example, MAX_EXAMPLES);
    k.(examples := examples, accuracy := if |examples| % 50 == 0 then Accuracy(examples, k.accuracy, rankings) else k.accuracy)
  }

  ghost predicate RanksWhenRetrained(examples: seq<Example>, rankings: seq<seq<Example>>) {
    |examples| % 50 == 0 ==> RanksTests(examples, rankings)
  }

  function ExampleOf(event: LearningEvent): Example {
    Example(FeaturesOf(event.conditions), event.configuration, event.score)
  }

  function Learned(k: Knowledge, event: LearningEvent, ranked: seq<Pattern>, rankings: seq<seq<Example>>): Knowledge {
    WithExample(
      k.(events := Capped(k.events, event, MAX_EVENTS), patterns := PatternsAfter(k.patterns, event, ranked)),
      ExampleOf(event), rankings)
  }

  /** The configuration and the confidence for the conditions; `ranked` is the examples by distance. */
  function Recommended(k: Knowledge, c: Conditions, ranked: seq<Example>): (Config, real) {
    var (config, best) := BestMatch(k.patterns, c);
    if config.Some? then (config.value, best)
    else
      match Prediction(ranked)
      case Some(predicted) => (predicted, k.accuracy)
      case None => (Config(4, 2, 100, false, 0, 1000), 0.5)
  }

  // ---------- the objects ----------

  class PredictiveModel {
    var trainingData: seq<Example>
    var modelAccuracy: real

    constructor ()
      ensures trainingData == [] && modelAccuracy == 0.0
    {
      trainingData, modelAccuracy := [], 0.0;
    }

    /** Keeps the newest examples and retrains at every fiftieth. */
    method AddTrainingExample(example: Example) returns (ghost rankings: seq<seq<Example>>)
      modifies this
      ensures trainingData == Capped(old(trainingData), example, MAX_EXAMPLES)
      ensures |trainingData| % 50 == 0 ==> RanksTests(trainingData, rankings)
      ensures modelAccuracy ==
        if |trainingData| % 50 == 0 then Accuracy(trainingData, old(modelAccuracy), rankings) else old(modelAccuracy)
    {
      trainingData := trainingData + [example];
      if |trainingData| > MAX_EXAMPLES {
        trainingData := trainingData[1..];
      }
      rankings := [];
      if |trainingData| % 50 == 0 {
        rankings := Retrain();
      }
    }

    /** Estimates the accuracy on the last fifth of the examples by the three nearest of the others. */
    method Retrain() returns (ghost rankings: seq<seq<Example>>)
      modifies this`modelAccuracy
      ensures RanksTests(trainingData, rankings)
      ensures modelAccuracy == Accuracy(trainingData, old(modelAccuracy), rankings)
    {
      hide Ranked, Foretells, Correct;
      if |trainingData| < 20 {
        rankings := AnyRankings(trainingData, TestSize(trainingData));
        return;
      }
      var correctPredictions: nat, testSize := 0, |trainingData| / 5;
      var split := |trainingData| - testSize;
      var trainData, testData := trainingData[..split], trainingData[split..];
      rankings := [];
      NoTests();
      for i := 0 to testSize
        invariant |rankings| == i && forall ranked :: ranked in rankings ==> |ranked| >= 3
        invariant forall k :: 0 <= k < i ==> Ranked(trainData, DistanceFrom(testData[k].features), rankings[k])
        invariant correctPredictions == Correct(testData[..i], rankings)
      {
        var neighbours := SortBy(trainData, DistanceFrom(testData[i].features));
        assert testData[..i + 1] == testData[..i] + [testData[i]];
        OneMoreTest(testData[..i], rankings, testData[i], neighbours);
        if Foretells(neighbours, testData[i]) {
          correctPredictions := correctPredictions + 1;
        }
        rankings := rankings + [neighbours];
      }
      assert testData[..testSize] == testData;
      modelAccuracy := correctPredictions as real / testSize as real;
    }

    /** The score-weighted average over the nearest examples. */
    method Predict(c: Conditions) returns (config: Option<Config>, confidence: real, ghost ranked: seq<Example>)
      ensures Ranked(trainingData, DistanceFrom(FeaturesOf(c)), ranked) && config == Prediction(ranked)
      ensures confidence == if config.Some? then modelAccuracy else 0.0
    {
      hide Truncated, Product, FeaturesOf;
      var neighbours := SortBy(trainingData, DistanceFrom(FeaturesOf(c)));
      ranked := neighbours;
      if |trainingData| < 10 {
        return None, 0.0, ranked;
      }
      var k := NEIGHBOURS;
      if |neighbours| < k {
        k := |neighbours|;
      }
      var totalWeight, weightedFetch, weightedPush, weightedBatch := 0.0, 0.0, 0.0, 0.0;
      for i := 0 to k
        invariant totalWeight == TotalScore(neighbours[..i])
        invariant weightedFetch == WeightedSum(neighbours[..i], Fetch)
        invariant weightedPush == WeightedSum(neighbours[..i], Push)
        invariant weightedBatch == WeightedSum(neighbours[..i], Batch)
      {
        var weight := neighbours[i].score;
        assert neighbours[..i + 1][..i] == neighbours[..i];
        totalWeight := totalWeight + weight;
        weightedFetch := weightedFetch + Product(Fetch(neighbours[i].config), weight);
        weightedPush := weightedPush + Product(Push(neighbours[i].config), weight);
        weightedBatch := weightedBatch + Product(Batch(neighbours[i].config), weight);
      }
      if totalWeight == 0.0 {
        return None, 0.0, ranked;
      }
      config := Some(Config(
        Truncated(weightedFetch / totalWeight), Truncated(weightedPush / totalWeight),
        Truncated(weightedBatch / totalWeight), false, 0, 1000));
      confidence := modelAccuracy;
    }
  }

  lemma NoTests()
    ensures Correct([], []) == 0
  {
  }

  lemma OneMoreTest(tests: seq<Example>, rankings: seq<seq<Example>>, test: Example, ranked: seq<Example>)
    requires |rankings| == |tests| && |ranked| >= 3 && forall r :: r in rankings ==> |r| >= 3
    ensures Correct(tests + [test], rankings + [ranked]) == Correct(tests, rankings) + if Foretells(ranked, test) then 1 else 0
  {
    assert (tests + [test])[..|tests|] == tests && (rankings + [ranked])[..|tests|] == rankings;
  }

  lemma {:induction false} AnyRankings(examples: seq<Example>, t: nat) returns (rankings: seq<seq<Example>>)
    requires t <= TestSize(examples)
    ensures |rankings| == t
    ensures forall i :: 0 <= i < t ==>
      var split := |examples| - TestSize(examples);
      Ranked(examples[..split], DistanceFrom(examples[split..][i].features), rankings[i])
  {
    if t == 0 {
      rankings := [];
    } else {
      var split := |examples| - TestSize(examples);
      var rest := AnyRankings(examples, t - 1);
      var last := RankingExists(examples[..split], DistanceFrom(examples[split..][t - 1].features));
      rankings := rest + [last];
    }
  }

  class AdaptiveLearningEngine {
    var learningHistory: seq<LearningEvent>
    var optimalConfigs: seq<Pattern>
    const predictiveModel: PredictiveModel

    function Knows(): Knowledge
      reads this, predictiveModel
    {
      Knowledge(learningHistory, optimalConfigs, predictiveModel.trainingData, predictiveModel.modelAccuracy)
    }

    constructor ()
      ensures Knows() == Knowledge([], [], [], 0.0) && fresh(predictiveModel)
    {
      learningHistory, optimalConfigs := [], [];
      predictiveModel := new PredictiveModel();
    }

    /** Reinforces the first matching pattern or adds one, and keeps the most effective ones. */
    method UpdateOptimalConfigs(event: LearningEvent) returns (ghost ranked: seq<Pattern>)
      requires Worthwhile(event)
      modifies this`optimalConfigs
      ensures Ranked(Reinforced(old(optimalConfigs), event), Ineffectiveness, ranked)
      ensures optimalConfigs == PatternsAfter(old(optimalConfigs), event, ranked)
    {
      hide MatchScore, Ranked;
      for i := 0 to |optimalConfigs|
        invariant FirstMatch(optimalConfigs[..i], event.conditions).None?
        invariant optimalConfigs == old(optimalConfigs)
      {
        var pattern := optimalConfigs[i];
        assert optimalConfigs[..i + 1][..i] == optimalConfigs[..i];
        if MatchScore(pattern.conditions, event.conditions) >= MATCH_THRESHOLD {
          FirstMatchExtends(optimalConfigs, i, event.conditions);
          pattern := pattern.(usageCount := pattern.usageCount + 1);
          pattern := pattern.(effectiveness := pattern.effectiveness * 0.7 + event.score * 0.3);
          pattern := pattern.(confidence := if pattern.confidence + 0.1 < 1.0 then pattern.confidence + 0.1 else 1.0);
          optimalConfigs := optimalConfigs[i := pattern];
          ranked := SortBy(optimalConfigs, Ineffectiveness);
          return;
        }
      }
      assert optimalConfigs[..|optimalConfigs|] == optimalConfigs;
      optimalConfigs := optimalConfigs + [Pattern(event.conditions, event.configuration, event.score, 1, 0.5)];
      var sorted := SortBy(optimalConfigs, Ineffectiveness);
      ranked := sorted;
      if |optimalConfigs| > MAX_PATTERNS {
        optimalConfigs := sorted[..MAX_PATTERNS];
      }
    }

    /** Records the observation, learns the pattern if it is worthwhile, and adds a training example. */
    method LearnFromObservation(t: Telemetry, config: Config, score: real, outcome: Outcome, slot: Slot)
      returns (ghost ranked: seq<Pattern>, ghost rankings: seq<seq<Example>>)
      modifies this, predictiveModel
      ensures var event := LearningEvent(ExtractConditions(t, slot), config, score, outcome);
              && Knows() == Learned(old(Knows()), event, ranked, rankings)
              && RanksWhenRetrained(Knows().examples, rankings)
              && (Worthwhile(event) ==> Ranked(Reinforced(old(Knows()).patterns, event), Ineffectiveness, ranked))
    {
      hide ExtractConditions, FeaturesOf, MatchScore, Reinforced;
      var event := LearningEvent(ExtractConditions(t, slot), config, score, outcome);
      learningHistory := learningHistory + [event];
      if |learningHistory| > MAX_EVENTS {
        learningHistory := learningHistory[1..];
      }
      ranked := [];
      if event.outcome.Success? && event.score > 0.7 {
        ranked := UpdateOptimalConfigs(event);
      }
      rankings := predictiveModel.AddTrainingExample(ExampleOf(event));
    }

    /** The best matching pattern, else the model's prediction, else the default with confidence 0.5. */
    method PredictOptimalConfiguration(t: Telemetry, slot: Slot)
      returns (config: Config, confidence: real, ghost ranked: seq<Example>)
      ensures var c := ExtractConditions(t, slot);
              && Ranked(Knows().examples, DistanceFrom(FeaturesOf(c)), ranked)
              && (config, confidence) == Recommended(Knows(), c, ranked)
    {
      hide ExtractConditions, FeaturesOf, MatchScore, Distance, Prediction;
      var c := ExtractConditions(t, slot);
      var best, score := FindBestMatchingConfig(c);
      if best.Some? {
        ranked := RankingExists(predictiveModel.trainingData, DistanceFrom(FeaturesOf(c)));
        return best.value, score, ranked;
      }
      var predicted;
      predicted, confidence, ranked := predictiveModel.Predict(c);
      if predicted.Some? {
        return predicted.value, confidence, ranked;
      }
      return Config(4, 2, 100, false, 0, 1000), 0.5, ranked;
    }

    method FindBestMatchingConfig(c: Conditions) returns (config: Option<Config>, best: real)
      ensures (config, best) == BestMatch(optimalConfigs, c)
    {
      hide MatchScore;
      config, best := None, 0.0;
      for i := 0 to |optimalConfigs|
        invariant (config, best) == BestMatch(optimalConfigs[..i], c)
      {
        assert optimalConfigs[..i + 1][..i] == optimalConfigs[..i];
        var score := MatchScore(optimalConfigs[i].conditions, c);
        if score > 0.7 && score > best {
          best := score;
          config := Some(optimalConfigs[i].configuration);
        }
      }
      assert optimalConfigs[..|optimalConfigs|] == optimalConfigs;
    }
  }

  lemma {:induction false} FirstMatchExtends(patterns: seq<Pattern>, i: nat, c: Conditions)
    requires i < |patterns| && FirstMatch(patterns[..i], c).None?
    requires MatchScore(patterns[i].conditions, c) >= MATCH_THRESHOLD
    ensures FirstMatch(patterns, c) == Some(i)
    decreases |patterns|
  {
    hide MatchScore;
    if i < |patterns| - 1 {
      assert patterns[..|patterns| - 1][..i] == patterns[..i];
      FirstMatchExtends(patterns[..|patterns| - 1], i, c);
    }
  }
}
