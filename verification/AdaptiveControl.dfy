/** The adaptive controller: rules, learned history and predictions deciding the next configuration. */
module AdaptiveControl {
  import opened Common
  import opened Learning
  import opened LearningEngine

  const CPU_HIGH := 75.0
  const MEMORY_HIGH := 80.0
  const LATENCY_HIGH := 500.0
  const QUEUE_HIGH := 500

  const MAX_HISTORY := 50

  datatype Adjustment = Adjustment(
    oldConfig: Config, newConfig: Config, vm: Telemetry, cloud: Telemetry, effectiveness: real)

  /** The controller and everything its engine knows; `last` is the time of the last adjustment, in ms. */
  datatype State = State(
    current: Config, history: seq<Adjustment>, vm: Option<Telemetry>, cloud: Option<Telemetry>, last: Option<int>,
    knowledge: Knowledge)

  const INITIAL := Config(4, 2, 100, false, 0, 1000)

  // ---------- the rules ----------

  function Clamp(value: int, min: int, max: int): (r: int)
    requires min <= max
    ensures min <= r <= max && (min <= value <= max ==> r == value)
  {
    if value < min then min else if value > max then max else value
  }

  predicate IsOverloaded(t: Telemetry) {
    t.cpu > CPU_HIGH || t.memory > MEMORY_HIGH || t.latency > LATENCY_HIGH || t.queueDepth > QUEUE_HIGH
  }

  predicate IsHealthy(t: Telemetry) {
    t.cpu < CPU_HIGH && t.memory < MEMORY_HIGH && t.latency < LATENCY_HIGH && t.queueDepth < QUEUE_HIGH
  }

  predicate IsStable(t: Telemetry) {
    t.cpu < CPU_HIGH * 0.6 && t.memory < MEMORY_HIGH * 0.7 && t.latency < LATENCY_HIGH * 0.5
  }

  /** More than `duration` since the last adjustment; always so before the first one. */
  predicate Elapsed(last: Option<int>, now: int, duration: int) {
    last.Some? ==> now - last.value >= duration
  }

  predicate CanScaleUp(vm: Telemetry, cloud: Telemetry, now: int, last: Option<int>) {
    IsHealthy(vm) && IsHealthy(cloud) && (vm.cpu < CPU_HIGH * 0.8 || cloud.cpu < CPU_HIGH * 0.8) && Elapsed(last, now, 45000)
  }

  predicate ShouldOptimize(vm: Telemetry, cloud: Telemetry, now: int, last: Option<int>) {
    IsStable(vm) && IsStable(cloud) && Elapsed(last, now, 60001)
  }

  function Larger(x: real, y: real): real {
    if x >= y then x else y
  }

  /** Between 1.05 and 1.25, growing with the smaller of the two idle capacities. */
  function ScaleFactor(vm: Telemetry, cloud: Telemetry): (r: real)
    ensures 1.05 <= r <= 1.25
  {
    var capacity := 1.0 - Larger(vm.cpu, cloud.cpu) / CPU_HIGH;
    var factor := 1.05 + capacity * 0.20;
    if factor < 1.05 then 1.05 else if factor > 1.25 then 1.25 else factor
  }

  /** How far the telemetry is over its limits, as the largest share of the room above them. */
  function Overload(t: Telemetry): (r: real)
    ensures r >= 0.0
  {
    Larger(Larger(0.0, (t.cpu - CPU_HIGH) / (100.0 - CPU_HIGH)),
           Larger(Larger(0.0, (t.memory - MEMORY_HIGH) / (100.0 - MEMORY_HIGH)),
                  Larger(0.0, (t.latency - LATENCY_HIGH) / LATENCY_HIGH)))
  }

  function ThrottleDelay(t: Telemetry): int {
    50 + Truncated(Overload(t) * 1950.0)
  }

  /** The delay scale of 50 to 2000 ms is exceeded exactly by processor, memory or latency far beyond the limits. */
  lemma ThrottleDelayRange(t: Telemetry)
    ensures ThrottleDelay(t) >= 50
    ensures ThrottleDelay(t) <= 2000 <==>
            && t.cpu < 75.0 + 25.0 * (1951.0 / 1950.0)
            && t.memory < 80.0 + 20.0 * (1951.0 / 1950.0)
            && t.latency < 500.0 + 500.0 * (1951.0 / 1950.0)
  {
    assert Overload(t) * 1950.0 < 1951.0 <==> Overload(t) < 1951.0 / 1950.0;
  }

  function Scaled(x: int, factor: real): int {
    Truncated(x as real * factor)
  }

  /** What the rules make of the current configuration. */
  function RuleConfig(c: Config, vm: Telemetry, cloud: Telemetry, now: int, last: Option<int>): Config {
    if IsOverloaded(vm) then
      Config(Clamp(c.fetch - 1, 1, 16), Clamp(c.push - 1, 1, 8), Clamp(Scaled(c.batch, 0.8), 10, 1000),
             true, ThrottleDelay(vm), Scaled(c.maxQueue, 0.7))
    else if IsOverloaded(cloud) then
      c.(fetch := Clamp(c.fetch - 1, 1, 16), batch := Clamp(Scaled(c.batch, 0.9), 10, 1000))
    else if CanScaleUp(vm, cloud, now, last) then
      Config(Clamp(c.fetch + 1, 1, 16), Clamp(c.push + 1, 1, 8), Clamp(Scaled(c.batch, ScaleFactor(vm, cloud)), 10, 1000),
             false, 0, c.maxQueue)
    else if ShouldOptimize(vm, cloud, now, last) then
      c.(backPressure := false, throttleDelay := 0, batch := Clamp(Scaled(c.batch, 1.05), 10, 1000))
    else
      c.(backPressure := false, throttleDelay := 0)
  }

  // ---------- learning from the adjustment history ----------

  predicate Near(x: real, y: real, limit: real) {
    -limit < x - y < limit
  }

  predicate SituationsSimilar(t1: Telemetry, t2: Telemetry) {
    Near(t1.cpu, t2.cpu, 20.0) && Near(t1.memory, t2.memory, 20.0) && Near(t1.latency, t2.latency, 500.0)
  }

  /** The first effective adjustment made in a similar situation. */
  function FirstEffective(history: seq<Adjustment>, vm: Telemetry): (r: Option<Config>)
    ensures r.Some? ==> exists a :: a in history && a.newConfig == r.value && a.effectiveness > 0.8
  {
    if history == [] then None
    else if history[0].effectiveness > 0.8 && SituationsSimilar(history[0].vm, vm) then Some(history[0].newConfig)
    else FirstEffective(history[1..], vm)
  }

  /** The configuration with the parallelism and the batch size of an effective recent adjustment. */
  function WithHistory(c: Config, history: seq<Adjustment>, vm: Telemetry): Config {
    if |history| < 5 then c
    else
      var recent := if |history| > 10 then history[|history| - 10..] else history;
      match FirstEffective(recent, vm)
      case None => c
      case Some(learned) => c.(fetch := learned.fetch, push := learned.push, batch := learned.batch)
  }

  /** The rules and the history are consulted once by the calculation and once after it, to the same effect. */
  lemma HistoryIsIdempotent(c: Config, history: seq<Adjustment>, vm: Telemetry)
    ensures WithHistory(WithHistory(c, history, vm), history, vm) == WithHistory(c, history, vm)
  {
  }

  // ---------- the steps ----------

  predicate ShouldAdjust(s: State, now: int) {
    Elapsed(s.last, now, 30000) && s.vm.Some? && s.cloud.Some?
  }

  /** The next configuration: the recommendation if its confidence exceeds 0.6, else rules and history. */
  function Decided(s: State, now: int, slot: Slot, ranked: seq<Example>): Config
    requires ShouldAdjust(s, now)
  {
    var (config, confidence) := Recommended(s.knowledge, ExtractConditions(s.vm.value, slot), ranked);
    if confidence > 0.6 then config
    else WithHistory(RuleConfig(s.current, s.vm.value, s.cloud.value, now, s.last), s.history, s.vm.value)
  }

  function Analyzed(s: State, now: int, slot: Slot, ranked: seq<Example>): State {
    if !ShouldAdjust(s, now) then s
    else
      var config := Decided(s, now, slot, ranked);
      if config == s.current then s
      else
        var adjustment := Adjustment(s.current, config, s.vm.value, s.cloud.value, 0.5);
        s.(current := config, history := Capped(s.history, adjustment, MAX_HISTORY), last := Some(now))
  }

  function OutcomeOf(effectiveness: real): Outcome {
    if effectiveness < 0.5 then Failure else if effectiveness < 0.7 then Partial else Success
  }

  /** The telemetry learned from: the VM's, or the cloud's if only that one names its node. */
  function Observed(a: Adjustment): Telemetry {
    if a.vm.nodeID == "" && a.cloud.nodeID != "" then a.cloud else a.vm
  }

  /** The last adjustment is judged, and learned from if its telemetry names a node. */
  function Judged(s: State, effectiveness: real, slot: Slot, ranked: seq<Pattern>, rankings: seq<seq<Example>>): State {
    if s.history == [] then s
    else
      var n := |s.history| - 1;
      var a := s.history[n].(effectiveness := effectiveness);
      var judged := s.(history := s.history[n := a]);
      if Observed(a).nodeID == "" then judged
      else judged.(knowledge := Learned(s.knowledge, EventOf(a, slot), ranked, rankings))
  }

  function EventOf(a: Adjustment, slot: Slot): LearningEvent {
    LearningEvent(ExtractConditions(Observed(a), slot), a.newConfig, a.effectiveness, OutcomeOf(a.effectiveness))
  }

  datatype Action =
    | ReportVM(t: Option<Telemetry>)
    | ReportCloud(t: Option<Telemetry>)
    | Analyze(now: int, slot: Slot, examples: seq<Example>)
    | Judge(effectiveness: real, judgedIn: Slot, patterns: seq<Pattern>, rankings: seq<seq<Example>>)

  /** The rankings in an action are rankings of what the state holds. */
  ghost predicate Possible(s: State, action: Action) {
    match action
    case ReportVM(_) => true
    case ReportCloud(_) => true
    case Analyze(now, slot, examples) =>
      s.vm.Some? ==>
        Ranked(s.knowledge.examples, DistanceFrom(FeaturesOf(ExtractConditions(s.vm.value, slot))), examples)
    case Judge(effectiveness, slot, patterns, rankings) =>
      s.history != [] ==>
        var event := EventOf(s.history[|s.history| - 1].(effectiveness := effectiveness), slot);
        && (Worthwhile(event) ==> Ranked(Reinforced(s.knowledge.patterns, event), Ineffectiveness, patterns))
        && RanksWhenRetrained(Capped(s.knowledge.examples, ExampleOf(event), MAX_EXAMPLES), rankings)
  }

  function Next(s: State, action: Action): State {
    match action
    case ReportVM(t) => s.(vm := t)
    case ReportCloud(t) => s.(cloud := t)
    case Analyze(now, slot, examples) => Analyzed(s, now, slot, examples)
    case Judge(effectiveness, slot, patterns, rankings) => Judged(s, effectiveness, slot, patterns, rankings)
  }

  // ---------- the controller ----------

  class AdaptiveController {
    var currentConfig: Config
    var learningHistory: seq<Adjustment>
    var vmTelemetry: Option<Telemetry>
    var cloudTelemetry: Option<Telemetry>
    var lastAdjustment: Option<int>
    const learningEngine: AdaptiveLearningEngine

    function Abstract(): State
      reads this, learningEngine, learningEngine.predictiveModel
    {
      State(currentConfig, learningHistory, vmTelemetry, cloudTelemetry, lastAdjustment, learningEngine.Knows())
    }

    constructor ()
      ensures Abstract() == State(INITIAL, [], None, None, None, Knowledge([], [], [], 0.0))
    {
      currentConfig, learningHistory := INITIAL, [];
      vmTelemetry, cloudTelemetry, lastAdjustment := None, None, None;
      learningEngine := new AdaptiveLearningEngine();
    }

    method UpdateVMTelemetry(t: Option<Telemetry>)
      modifies this`vmTelemetry
      ensures Abstract() == Next(old(Abstract()), ReportVM(t))
    {
      vmTelemetry := t;
    }

    method UpdateCloudTelemetry(t: Option<Telemetry>)
      modifies this`cloudTelemetry
      ensures Abstract() == Next(old(Abstract()), ReportCloud(t))
    {
      cloudTelemetry := t;
    }

    /** Overwrites the parallelism and the batch size by the first effective recent adjustment. */
    method ApplyLearning(config: Config, vm: Telemetry) returns (r: Config)
      ensures r == WithHistory(config, learningHistory, vm)
    {
      hide SituationsSimilar;
      if |learningHistory| < 5 {
        return config;
      }
      var startIndex: int := |learningHistory| - 10;
      if startIndex < 0 {
        startIndex := 0;
      }
      var recent := learningHistory[startIndex..];
      for i := 0 to |recent|
        invariant FirstEffective(recent, vm) == FirstEffective(recent[i..], vm)
      {
        var a := recent[i];
        assert recent[i..][1..] == recent[i + 1..];
        if a.effectiveness > 0.8 && SituationsSimilar(a.vm, vm) {
          return config.(fetch := a.newConfig.fetch, push := a.newConfig.push, batch := a.newConfig.batch);
        }
      }
      r := config;
    }

    /** The rules step by step, then the history. */
    method CalculateOptimalConfig(now: int, vm: Telemetry, cloud: Telemetry) returns (config: Config)
      ensures config == WithHistory(RuleConfig(currentConfig, vm, cloud, now, lastAdjustment), learningHistory, vm)
    {
      hide WithHistory, Scaled, ThrottleDelay, ScaleFactor;
      config := currentConfig;
      if IsOverloaded(vm) {
        config := config.(backPressure := true, throttleDelay := ThrottleDelay(vm));
        config := config.(maxQueue := Scaled(config.maxQueue, 0.7));
        config := config.(fetch := Clamp(config.fetch - 1, 1, 16));
        config := config.(push := Clamp(config.push - 1, 1, 8));
        config := config.(batch := Clamp(Scaled(config.batch, 0.8), 10, 1000));
      } else if IsOverloaded(cloud) {
        config := config.(fetch := Clamp(config.fetch - 1, 1, 16));
        config := config.(batch := Clamp(Scaled(config.batch, 0.9), 10, 1000));
      } else {
        config := config.(backPressure := false, throttleDelay := 0);
        if CanScaleUp(vm, cloud, now, lastAdjustment) {
          config := config.(fetch := Clamp(config.fetch + 1, 1, 16));
          config := config.(push := Clamp(config.push + 1, 1, 8));
          config := config.(batch := Clamp(Scaled(config.batch, ScaleFactor(vm, cloud)), 10, 1000));
        } else if ShouldOptimize(vm, cloud, now, lastAdjustment) {
          config := config.(batch := Clamp(Scaled(config.batch, 1.05), 10, 1000));
        }
      }
      config := ApplyLearning(config, vm);
    }

    /** One adjustment: recommendation, else rules and history; recorded only if something changes. */
    method AnalyzeAndAdjust(now: int, slot: Slot) returns (config: Config, changed: bool, ghost ranked: seq<Example>)
      modifies this
      ensures Possible(old(Abstract()), Analyze(now, slot, ranked))
      ensures Abstract() == Next(old(Abstract()), Analyze(now, slot, ranked))
      ensures config == currentConfig && (changed <==> currentConfig != old(currentConfig))
    {
      hide ExtractConditions, FeaturesOf, Recommended, WithHistory, RuleConfig, Ranked;
      ghost var s := Abstract();
      if vmTelemetry.None? || cloudTelemetry.None? || !Elapsed(lastAdjustment, now, 30000) {
        ranked := AnyRanking(now, slot);
        return currentConfig, false, ranked;
      }
      var vm, cloud := vmTelemetry.value, cloudTelemetry.value;
      var confidence;
      config, confidence, ranked := learningEngine.PredictOptimalConfiguration(vm, slot);
      if confidence <= 0.6 {
        config := CalculateOptimalConfig(now, vm, cloud);
        HistoryIsIdempotent(RuleConfig(currentConfig, vm, cloud, now, lastAdjustment), learningHistory, vm);
        config := ApplyLearning(config, vm);
      }
      assert config == Decided(s, now, slot, ranked);
      if config == currentConfig {
        return config, false, ranked;
      }
      learningHistory := learningHistory + [Adjustment(currentConfig, config, vm, cloud, 0.5)];
      if |learningHistory| > MAX_HISTORY {
        learningHistory := learningHistory[1..];
      }
      currentConfig := config;
      lastAdjustment := Some(now);
      changed := true;
    }

    ghost method AnyRanking(now: int, slot: Slot) returns (ranked: seq<Example>)
      ensures Possible(Abstract(), Analyze(now, slot, ranked))
    {
      ranked := [];
      if vmTelemetry.Some? {
        ranked := RankingExists(learningEngine.Knows().examples,
                                DistanceFrom(FeaturesOf(ExtractConditions(vmTelemetry.value, slot))));
      }
    }

    /** Judges the last adjustment and passes it to the engine. */
    method UpdateEffectiveness(effectiveness: real, slot: Slot)
      returns (ghost ranked: seq<Pattern>, ghost rankings: seq<seq<Example>>)
      modifies this, learningEngine, learningEngine.predictiveModel
      ensures Possible(old(Abstract()), Judge(effectiveness, slot, ranked, rankings))
      ensures Abstract() == Next(old(Abstract()), Judge(effectiveness, slot, ranked, rankings))
    {
      hide ExtractConditions, Ranked, Reinforced, RanksTests, PatternsAfter, Accuracy, FeaturesOf;
      ranked, rankings := [], [];
      if |learningHistory| > 0 {
        var lastIdx := |learningHistory| - 1;
        learningHistory := learningHistory[lastIdx := learningHistory[lastIdx].(effectiveness := effectiveness)];
        var adjustment := learningHistory[lastIdx];
        var telemetry := Observed(adjustment);
        if telemetry.nodeID != "" {
          ranked, rankings := learningEngine.LearnFromObservation(
            telemetry, adjustment.newConfig, effectiveness, OutcomeOf(effectiveness), slot);
        } else {
          ghost var event, examples := EventOf(adjustment, slot), learningEngine.predictiveModel.trainingData;
          ranked := RankingExists(Reinforced(learningEngine.optimalConfigs, event), Ineffectiveness);
          rankings := AnyRanks(Capped(examples, ExampleOf(event), MAX_EXAMPLES));
        }
      }
    }
  }

  lemma AnyRanks(examples: seq<Example>) returns (rankings: seq<seq<Example>>)
    ensures RanksWhenRetrained(examples, rankings)
  {
    rankings := AnyRankings(examples, TestSize(examples));
  }

  // ---------- bounds over every run ----------

  /** All configurations the system holds: current, adjustments, events, patterns and examples. */
  ghost predicate AllInBounds(s: State) {
    && InBounds(s.current) && |s.history| <= MAX_HISTORY
    && (forall a :: a in s.history ==> InBounds(a.oldConfig) && InBounds(a.newConfig))
    && KnowledgeInBounds(s.knowledge)
  }

  ghost predicate KnowledgeInBounds(k: Knowledge) {
    && (forall e :: e in k.events ==> InBounds(e.configuration))
    && (forall p :: p in k.patterns ==> InBounds(p.configuration) && p.effectiveness > 0.7)
    && (forall e :: e in k.examples ==> InBounds(e.config) && e.score >= 0.0)
    && 0.0 <= k.accuracy <= 1.0 && |k.events| <= MAX_EVENTS && |k.patterns| <= MAX_PATTERNS && |k.examples| <= MAX_EXAMPLES
  }

  lemma ScaledQueue(q: int)
    requires 0 <= q
    ensures 0 <= Scaled(q, 0.7) <= q && (q > 0 ==> Scaled(q, 0.7) < q)
  {
  }

  lemma RuleConfigInBounds(c: Config, vm: Telemetry, cloud: Telemetry, now: int, last: Option<int>)
    requires InBounds(c)
    ensures InBounds(RuleConfig(c, vm, cloud, now, last))
  {
    hide Scaled, ThrottleDelay, ScaleFactor;
    ScaledQueue(c.maxQueue);
  }

  lemma BestMatchInBounds(patterns: seq<Pattern>, c: Conditions)
    requires forall p :: p in patterns ==> InBounds(p.configuration)
    ensures BestMatch(patterns, c).0.Some? ==> InBounds(BestMatch(patterns, c).0.value)
  {
    hide MatchScore, BestMatch, FirstBest;
    BestMatchMeaning(patterns, c);
  }

  /** Predictions from examples within bounds and with non-negative scores are within bounds. */
  lemma PredictionInBounds(examples: seq<Example>, ranked: seq<Example>, f: Features)
    requires Ranked(examples, DistanceFrom(f), ranked)
    requires forall e :: e in examples ==> InBounds(e.config) && e.score >= 0.0
    ensures Prediction(ranked).Some? ==> InBounds(Prediction(ranked).value)
  {
    hide Average, TotalScore;
    if Prediction(ranked).Some? {
      var nearest := ranked[..NEIGHBOURS];
      forall e | e in nearest ensures InBounds(e.config) && e.score >= 0.0 {
        assert e in multiset(ranked) && e in multiset(examples);
      }
      AverageInBounds(nearest);
    }
  }

  lemma AnalyzedInBounds(s: State, now: int, slot: Slot, ranked: seq<Example>)
    requires AllInBounds(s) && Possible(s, Analyze(now, slot, ranked))
    ensures AllInBounds(Analyzed(s, now, slot, ranked))
  {
    hide ExtractConditions, FeaturesOf, RuleConfig, MatchScore, Ranked, BestMatch, Prediction, InBounds;
    if ShouldAdjust(s, now) {
      var c := ExtractConditions(s.vm.value, slot);
      RuleConfigInBounds(s.current, s.vm.value, s.cloud.value, now, s.last);
      BestMatchInBounds(s.knowledge.patterns, c);
      PredictionInBounds(s.knowledge.examples, ranked, FeaturesOf(c));
      HistoryInBounds(RuleConfig(s.current, s.vm.value, s.cloud.value, now, s.last), s.history, s.vm.value);
      assert InBounds(Decided(s, now, slot, ranked));
    }
  }

  lemma HistoryInBounds(c: Config, history: seq<Adjustment>, vm: Telemetry)
    requires InBounds(c) && forall a :: a in history ==> InBounds(a.newConfig)
    ensures InBounds(WithHistory(c, history, vm))
  {
  }

  lemma LearnedInBounds(k: Knowledge, event: LearningEvent, ranked: seq<Pattern>, rankings: seq<seq<Example>>)
    requires KnowledgeInBounds(k) && InBounds(event.configuration) && event.score >= 0.0
    requires Worthwhile(event) ==> Ranked(Reinforced(k.patterns, event), Ineffectiveness, ranked)
    ensures KnowledgeInBounds(Learned(k, event, ranked, rankings))
  {
    hide MatchScore, FirstMatch, FeaturesOf, InBounds, Accuracy;
    assert 0.0 <= Accuracy(Capped(k.examples, ExampleOf(event), MAX_EXAMPLES), k.accuracy, rankings) <= 1.0;
    var reinforced := Reinforced(k.patterns, event);
    if Worthwhile(event) {
      assert forall p :: p in reinforced ==> InBounds(p.configuration) && p.effectiveness > 0.7;
      RankedLength(reinforced, Ineffectiveness, ranked);
      forall p | p in ranked ensures InBounds(p.configuration) && p.effectiveness > 0.7 {
        assert p in multiset(ranked) && p in multiset(reinforced);
      }
    }
  }

  lemma JudgedInBounds(s: State, effectiveness: real, slot: Slot, ranked: seq<Pattern>, rankings: seq<seq<Example>>)
    requires AllInBounds(s) && Possible(s, Judge(effectiveness, slot, ranked, rankings)) && effectiveness >= 0.0
    ensures AllInBounds(Judged(s, effectiveness, slot, ranked, rankings))
  {
    hide ExtractConditions, Learned, Reinforced, Ranked, InBounds;
    if s.history != [] {
      var a := s.history[|s.history| - 1].(effectiveness := effectiveness);
      LearnedInBounds(s.knowledge, EventOf(a, slot), ranked, rankings);
    }
  }

  /** A run from the initial state; every action is possible where it happens, no score is negative. */
  ghost predicate Runs(actions: seq<Action>, s: State) {
    if actions == [] then s == State(INITIAL, [], None, None, None, Knowledge([], [], [], 0.0))
    else
      var action := actions[|actions| - 1];
      exists before :: Runs(actions[..|actions| - 1], before) && Possible(before, action) && s == Next(before, action)
                       && (action.Judge? ==> action.effectiveness >= 0.0)
  }

  /**
   * Bounds over every run: with non-negative effectiveness scores, every configuration the system ever
   * holds keeps its fetch parallelism in 1..16, push parallelism in 1..8, batch size in 10..1000 and
   * queue size in 0..1000; the histories stay within their sizes and the patterns above 0.7.
   */
  lemma {:induction false} BoundsAlways(actions: seq<Action>, s: State)
    requires Runs(actions, s)
    ensures AllInBounds(s)
  {
    hide AllInBounds, Possible, Analyzed, Judged;
    if actions == [] {
      InitiallyInBounds();
    } else {
      var init, action := actions[..|actions| - 1], actions[|actions| - 1];
      var before :| Runs(init, before) && Possible(before, action) && s == Next(before, action)
                    && (action.Judge? ==> action.effectiveness >= 0.0);
      BoundsAlways(init, before);
      NextInBounds(before, action);
    }
  }

  lemma InitiallyInBounds()
    ensures AllInBounds(State(INITIAL, [], None, None, None, Knowledge([], [], [], 0.0)))
  {
  }

  lemma NextInBounds(s: State, action: Action)
    requires AllInBounds(s) && Possible(s, action) && (action.Judge? ==> action.effectiveness >= 0.0)
    ensures AllInBounds(Next(s, action))
  {
    hide Possible, Analyzed, Judged;
    match action {
      case ReportVM(_) =>
      case ReportCloud(_) =>
      case Analyze(now, slot, examples) => AnalyzedInBounds(s, now, slot, examples);
      case Judge(effectiveness, slot, patterns, rankings) => JudgedInBounds(s, effectiveness, slot, patterns, rankings);
    }
  }

  // ---------- what the rules do not do ----------

  /** A learned pattern that matches is applied even while the VM is overloaded. */
  lemma PatternsOverrideRules(s: State, now: int, slot: Slot, ranked: seq<Example>)
    requires ShouldAdjust(s, now)
    requires BestMatch(s.knowledge.patterns, ExtractConditions(s.vm.value, slot)).0.Some?
    ensures Analyzed(s, now, slot, ranked).current
            == BestMatch(s.knowledge.patterns, ExtractConditions(s.vm.value, slot)).0.value
  {
    hide ExtractConditions, MatchScore, BestMatch, FirstBest;
    BestMatchMeaning(s.knowledge.patterns, ExtractConditions(s.vm.value, slot));
  }

  /** The state after the actions. */
  function After(s: State, actions: seq<Action>): State {
    if actions == [] then s else Next(After(s, actions[..|actions| - 1]), actions[|actions| - 1])
  }

  /** The action does not follow a recommendation: if it adjusts, the recommendation is not confident enough. */
  predicate Unrecommended(s: State, action: Action) {
    action.Analyze? && ShouldAdjust(s, action.now) ==>
      Recommended(s.knowledge, ExtractConditions(s.vm.value, action.slot), action.examples).1 <= 0.6
  }

  /** The action adjusts while the VM is overloaded. */
  predicate AdjustsOverloaded(s: State, action: Action) {
    action.Analyze? && ShouldAdjust(s, action.now) && IsOverloaded(s.vm.value)
  }

  /** How many of the actions adjust while the VM is overloaded. */
  function OverloadedAdjustments(s: State, actions: seq<Action>): nat {
    if actions == [] then 0
    else
      var init := actions[..|actions| - 1];
      OverloadedAdjustments(s, init) + if AdjustsOverloaded(After(s, init), actions[|actions| - 1]) then 1 else 0
  }

  /** The queue size after `n` cuts. */
  function Cut(queue: int, n: nat): int {
    if n == 0 then queue else Scaled(Cut(queue, n - 1), 0.7)
  }

  lemma {:induction false} CutsEmptyTheQueue(queue: int, n: nat)
    requires queue >= 0
    ensures 0 <= Cut(queue, n) <= (if n < queue then queue - n else 0)
  {
    hide Scaled;
    if n > 0 {
      CutsEmptyTheQueue(queue, n - 1);
      ScaledQueue(Cut(queue, n - 1));
    }
  }

  lemma StepCutsQueue(s: State, action: Action)
    requires Unrecommended(s, action)
    ensures Next(s, action).current.maxQueue ==
            if AdjustsOverloaded(s, action) then Scaled(s.current.maxQueue, 0.7) else s.current.maxQueue
  {
    hide Scaled, ThrottleDelay, ScaleFactor, IsOverloaded, ExtractConditions, Recommended, CanScaleUp, ShouldOptimize;
    hide Learned, Observed, EventOf, Elapsed;
  }

  /**
   * In any run whose adjustments follow no recommendation, whatever the telemetry, the clock, the history and
   * the judgements in between: the queue is cut once for every adjustment made while the VM is overloaded and
   * is never enlarged again, so a lasting overload leaves no queue at all.
   */
  lemma {:induction false} QueueStarves(s: State, actions: seq<Action>)
    requires s.current.maxQueue >= 0
    requires forall i :: 0 <= i < |actions| ==> Unrecommended(After(s, actions[..i]), actions[i])
    ensures var n := OverloadedAdjustments(s, actions);
            && After(s, actions).current.maxQueue == Cut(s.current.maxQueue, n)
            && 0 <= After(s, actions).current.maxQueue <= s.current.maxQueue
            && (n >= s.current.maxQueue ==> After(s, actions).current.maxQueue == 0)
  {
    hide Unrecommended, AdjustsOverloaded, Next, Scaled;
    CutsEmptyTheQueue(s.current.maxQueue, OverloadedAdjustments(s, actions));
    if actions != [] {
      var init := actions[..|actions| - 1];
      forall i | 0 <= i < |init| ensures Unrecommended(After(s, init[..i]), init[i]) {
        assert init[..i] == actions[..i];
      }
      QueueStarves(s, init);
      assert Unrecommended(After(s, actions[..|init|]), actions[|init|]);
      StepCutsQueue(After(s, init), actions[|init|]);
    }
  }
}
