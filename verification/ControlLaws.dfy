/** What the adaptive controller's rules do, in terms of the load they answer to, over steps and runs. */
module ControlLaws {
  import opened Common
  import opened Learning
  import opened LearningEngine
  import opened AdaptiveControl

  // ---------- the load ----------

  /** Some limit is exceeded. */
  predicate Over(t: Telemetry) {
    t.cpu > 75.0 || t.memory > 80.0 || t.latency > 500.0 || t.queueDepth > 500
  }

  /** Every limit is kept with room to spare. */
  predicate Under(t: Telemetry) {
    t.cpu < 75.0 && t.memory < 80.0 && t.latency < 500.0 && t.queueDepth < 500
  }

  /** The load is far below the limits; the queue does not matter for it. */
  predicate Calm(t: Telemetry) {
    t.cpu < 45.0 && t.memory < 56.0 && t.latency < 250.0
  }

  /** The last change was made at least so many milliseconds before, or there was none. */
  predicate Since(s: State, now: int, duration: int) {
    s.last.None? || now >= s.last.value + duration
  }

  /** One of the last ten adjustments, of at least five, was effective in a similar situation. */
  predicate Precedented(history: seq<Adjustment>, vm: Telemetry) {
    |history| >= 5 && exists k :: 0 <= k < |history| && k >= |history| - 10 && Serves(history[k], vm)
  }

  predicate Serves(a: Adjustment, vm: Telemetry) {
    && a.effectiveness > 0.8
    && -20.0 < a.vm.cpu - vm.cpu < 20.0 && -20.0 < a.vm.memory - vm.memory < 20.0 && -500.0 < a.vm.latency - vm.latency < 500.0
  }

  /** The analysis takes place: telemetry of both sides is there, and thirty seconds have passed since the last change. */
  predicate Adjusts(s: State, action: Action) {
    action.Analyze? && Since(s, action.now, 30000) && s.vm.Some? && s.cloud.Some?
  }

  /** If the action adjusts, only the rules decide: neither a recommendation nor a precedent does. */
  predicate ByRules(s: State, action: Action) {
    Unrecommended(s, action) && (Adjusts(s, action) ==> !Precedented(s.history, s.vm.value))
  }

  lemma {:induction false} FirstEffectiveServes(history: seq<Adjustment>, vm: Telemetry)
    ensures match FirstEffective(history, vm)
            case None => forall k :: 0 <= k < |history| ==> !Serves(history[k], vm)
            case Some(config) => exists k :: 0 <= k < |history| && Serves(history[k], vm) && config == history[k].newConfig
                                             && forall j :: 0 <= j < k ==> !Serves(history[j], vm)
  {
    if history != [] && !Serves(history[0], vm) {
      FirstEffectiveServes(history[1..], vm);
      match FirstEffective(history[1..], vm)
      case None =>
        forall k | 0 <= k < |history| ensures !Serves(history[k], vm) {
          if k > 0 { assert history[k] == history[1..][k - 1]; }
        }
      case Some(config) =>
        var k :| 0 <= k < |history[1..]| && Serves(history[1..][k], vm) && config == history[1..][k].newConfig
                 && forall j :: 0 <= j < k ==> !Serves(history[1..][j], vm);
        assert Serves(history[k + 1], vm);
        forall j | 0 <= j < k + 1 ensures !Serves(history[j], vm) {
          if j > 0 { assert history[j] == history[1..][j - 1]; }
        }
    }
  }

  /**
   * The history decides parallelism and batch size exactly if there is a precedent, and then by the oldest
   * one among the last ten adjustments; it never touches anything else.
   */
  lemma HistoryDecides(c: Config, history: seq<Adjustment>, vm: Telemetry)
    ensures var d := WithHistory(c, history, vm);
            && (!Precedented(history, vm) ==> d == c)
            && (Precedented(history, vm) ==>
                  exists k :: 0 <= k < |history| && k >= |history| - 10 && Serves(history[k], vm)
                    && d == c.(fetch := history[k].newConfig.fetch, push := history[k].newConfig.push, batch := history[k].newConfig.batch)
                    && forall j :: 0 <= j < k && j >= |history| - 10 ==> !Serves(history[j], vm))
  {
    hide Serves, FirstEffective;
    if |history| >= 5 {
      var start := if |history| > 10 then |history| - 10 else 0;
      var recent := history[start..];
      assert |history| <= 10 ==> recent == history;
      FirstEffectiveServes(recent, vm);
      match FirstEffective(recent, vm)
      case None =>
        forall k | 0 <= k < |history| && k >= |history| - 10 ensures !Serves(history[k], vm) {
          assert history[k] == recent[k - start];
        }
      case Some(config) =>
        var k :| 0 <= k < |recent| && Serves(recent[k], vm) && config == recent[k].newConfig
                 && forall j :: 0 <= j < k ==> !Serves(recent[j], vm);
        assert Serves(history[start + k], vm);
        forall j | 0 <= j < start + k && j >= |history| - 10 ensures !Serves(history[j], vm) {
          assert history[j] == recent[j - start];
        }
    }
  }

  // ---------- one adjustment ----------

  lemma CutShort(x: int, tenths: int)
    requires x >= 0 && 0 <= tenths <= 10
    ensures Truncated(x as real * (tenths as real / 10.0)) == x * tenths / 10
  {
    var q, r := x * tenths / 10, x * tenths % 10;
    assert x * tenths == 10 * q + r;
    assert x as real * (tenths as real / 10.0) == (x * tenths) as real / 10.0;
    assert (x * tenths) as real / 10.0 == q as real + r as real / 10.0;
  }

  /** What is left of a value after a cut to so many tenths, but never less than the least. */
  function Shrunk(x: int, tenths: int, least: int): int {
    Max(x * tenths / 10, least)
  }

  /**
   * An overloaded VM takes the load off: one fetcher and one pusher less, but at least one, the batch and
   * the queue cut to eight and seven tenths, and back-pressure of at least 50 ms.
   */
  lemma OverloadRelieves(s: State, action: Action)
    requires Adjusts(s, action) && ByRules(s, action) && InBounds(s.current) && Over(s.vm.value)
    ensures var c, d := s.current, Next(s, action).current;
            && d.fetch == Max(c.fetch - 1, 1) && d.push == Max(c.push - 1, 1) && d.batch == Shrunk(c.batch, 8, 10)
            && d.backPressure && d.throttleDelay == ThrottleDelay(s.vm.value) >= 50 && d.maxQueue == c.maxQueue * 7 / 10
  {
    hide ThrottleDelay, ScaleFactor, Truncated, Serves, WithHistory, Recommended, ExtractConditions;
    HistoryDecides(RuleConfig(s.current, s.vm.value, s.cloud.value, action.now, s.last), s.history, s.vm.value);
    CutShort(s.current.batch, 8);
    CutShort(s.current.maxQueue, 7);
    ThrottleDelayRange(s.vm.value);
  }

  /** An overloaded cloud side alone costs one fetcher and a tenth of the batch, and nothing else. */
  lemma CloudOverloadSlowsFetching(s: State, action: Action)
    requires Adjusts(s, action) && ByRules(s, action) && InBounds(s.current)
    requires !Over(s.vm.value) && Over(s.cloud.value)
    ensures Next(s, action).current ==
            s.current.(fetch := Max(s.current.fetch - 1, 1), batch := Shrunk(s.current.batch, 9, 10))
  {
    hide ThrottleDelay, ScaleFactor, Truncated, Serves, WithHistory, Recommended, ExtractConditions;
    HistoryDecides(RuleConfig(s.current, s.vm.value, s.cloud.value, action.now, s.last), s.history, s.vm.value);
    CutShort(s.current.batch, 9);
  }

  /** Both sides keep their limits with room, one of them has an idle processor, and the last change is 45 seconds old. */
  predicate MayGrow(s: State, now: int) {
    && s.vm.Some? && s.cloud.Some? && Under(s.vm.value) && Under(s.cloud.value)
    && (s.vm.value.cpu < 60.0 || s.cloud.value.cpu < 60.0) && Since(s, now, 45000)
  }

  /**
   * Without overload the back-pressure goes, and the queue stays.  Exactly if the load allows growth there is
   * one fetcher and one pusher more, up to the limits, and the batch grows by a twentieth to a quarter.
   */
  lemma GrowsIffIdle(s: State, action: Action)
    requires Adjusts(s, action) && ByRules(s, action) && InBounds(s.current)
    requires !Over(s.vm.value) && !Over(s.cloud.value)
    ensures var c, d := s.current, Next(s, action).current;
            && !d.backPressure && d.throttleDelay == 0 && d.maxQueue == c.maxQueue
            && (MayGrow(s, action.now) ==>
                  && d.fetch == Min(c.fetch + 1, 16) && d.push == Min(c.push + 1, 8)
                  && Min(c.batch * 21 / 20, 1000) <= d.batch <= Min(c.batch * 5 / 4, 1000))
            && (!MayGrow(s, action.now) ==>
                  && d.fetch == c.fetch && d.push == c.push
                  && d.batch == if Calm(s.vm.value) && Calm(s.cloud.value) && Since(s, action.now, 60001)
                                then Min(c.batch * 21 / 20, 1000) else c.batch)
  {
    hide ThrottleDelay, ScaleFactor, Scaled, Serves, WithHistory, Recommended, ExtractConditions;
    HistoryDecides(RuleConfig(s.current, s.vm.value, s.cloud.value, action.now, s.last), s.history, s.vm.value);
    var factor := ScaleFactor(s.vm.value, s.cloud.value);
    GrowsBetween(s.current.batch, factor);
    GrowsBetween(s.current.batch, 1.05);
  }

  lemma GrowsBetween(x: int, factor: real)
    requires 0 <= x && 1.05 <= factor <= 1.25
    ensures x * 21 / 20 <= Scaled(x, factor) <= x * 5 / 4
    ensures factor == 1.05 ==> Scaled(x, factor) == x * 21 / 20
  {
    hide Times, Truncated, Scaled;
    ScaledIs(x, factor);
    var r, low, high := x as real, x * 21 / 20, x * 5 / 4;
    TimesIs(r, 1.05);
    TimesIs(r, 1.25);
    TimesIs(r, factor);
    assert low as real <= r * 1.05 && r * 1.05 < low as real + 1.0;
    assert high as real <= r * 1.25 && r * 1.25 < high as real + 1.0;
    TimesOrder(r, 1.05, factor);
    TimesOrder(r, factor, 1.25);
    FloorBetween(Times(r, factor), low, high);
    if factor == 1.05 {
      FloorBetween(Times(r, factor), low, low);
    }
  }

  function Times(x: real, factor: real): real {
    x * factor
  }

  lemma ScaledIs(x: int, factor: real)
    ensures Scaled(x, factor) == Truncated(Times(x as real, factor))
  {
  }

  lemma TimesIs(x: real, factor: real)
    ensures Times(x, factor) == x * factor
  {
  }

  lemma TimesOrder(x: real, a: real, b: real)
    requires x >= 0.0 && a <= b
    ensures Times(x, a) <= Times(x, b)
  {
    assert x * (b - a) >= 0.0;
  }

  lemma FloorBetween(y: real, low: int, high: int)
    requires 0 <= low && low as real <= y < high as real + 1.0
    ensures low <= Truncated(y) <= high
  {
  }

  /** Whatever decides, an action that does not adjust leaves the configuration alone. */
  lemma OnlyAdjustmentsChange(s: State, action: Action)
    requires !Adjusts(s, action)
    ensures Next(s, action).current == s.current
  {
    hide Learned;
  }

  /**
   * By the rules, more fetchers or pushers come only where the load allows growth; without that only the batch
   * may grow, and by a twentieth at most.
   */
  lemma GrowthNeedsRoom(s: State, action: Action)
    requires ByRules(s, action) && InBounds(s.current)
    ensures var c, d := s.current, Next(s, action).current;
            && (d.fetch > c.fetch || d.push > c.push ==> action.Analyze? && MayGrow(s, action.now))
            && (!action.Analyze? || !MayGrow(s, action.now) ==> d.batch <= c.batch * 21 / 20)
  {
    hide Next, ByRules, Over, Calm, Under, Since;
    if !Adjusts(s, action) {
      OnlyAdjustmentsChange(s, action);
    } else if Over(s.vm.value) {
      OverloadRelieves(s, action);
    } else if Over(s.cloud.value) {
      CloudOverloadSlowsFetching(s, action);
    } else {
      GrowsIffIdle(s, action);
    }
  }

  /** Below the default of 50 ms nothing is added; a percent of processor adds 78 ms, of memory 97.5 ms, a millisecond of latency 3.9 ms. */
  lemma DelayFollowsTheWorst(t: Telemetry)
    ensures var cpu, memory, latency := (t.cpu - 75.0) * 78.0, (t.memory - 80.0) * 97.5, (t.latency - 500.0) * 3.9;
            var delay := ThrottleDelay(t) as real - 50.0;
            && delay > cpu - 1.0 && delay > memory - 1.0 && delay > latency - 1.0
            && delay <= Larger(Larger(cpu, memory), Larger(latency, 0.0))
  {
    assert Overload(t) * 1950.0 == Larger(Larger(0.0, (t.cpu - 75.0) * 78.0),
                                          Larger(Larger(0.0, (t.memory - 80.0) * 97.5), Larger(0.0, (t.latency - 500.0) * 3.9)));
  }

  /**
   * Which recommendation is followed: that of a pattern whenever one matches with more than 0.7, else a
   * prediction whose model is right more than six times in ten; the default is never applied.
   */
  lemma RecommendationDecides(s: State, action: Action)
    requires Adjusts(s, action)
    ensures var c := ExtractConditions(s.vm.value, action.slot);
            var (pattern, predicted) := (BestMatch(s.knowledge.patterns, c).0, Prediction(action.examples));
            && (!Unrecommended(s, action) <==> pattern.Some? || (predicted.Some? && s.knowledge.accuracy > 0.6))
            && (!Unrecommended(s, action) ==>
                  Next(s, action).current == if pattern.Some? then pattern.value else predicted.value)
  {
    hide ExtractConditions, MatchScore, BestMatch, FirstBest, Prediction, RuleConfig, WithHistory;
    BestMatchMeaning(s.knowledge.patterns, ExtractConditions(s.vm.value, action.slot));
  }

  /** The batch grows the faster the more idle the busier processor is: by a twentieth at the limit, by a quarter at rest. */
  lemma GrowthFollowsIdleness(vm: Telemetry, cloud: Telemetry)
    requires 0.0 <= vm.cpu <= 75.0 && 0.0 <= cloud.cpu <= 75.0
    ensures 375.0 * (ScaleFactor(vm, cloud) - 1.05) == 75.0 - (if vm.cpu > cloud.cpu then vm.cpu else cloud.cpu)
  {
  }

  // ---------- over runs ----------

  /** The action does not adjust unless the VM is overloaded. */
  predicate OnlyOverloaded(s: State, action: Action) {
    Adjusts(s, action) ==> Over(s.vm.value)
  }

  /** Every adjustment among the actions is decided by the rules while the VM is overloaded. */
  ghost predicate LastingOverload(s: State, actions: seq<Action>) {
    forall i :: 0 <= i < |actions| ==>
      ByRules(After(s, actions[..i]), actions[i]) && OnlyOverloaded(After(s, actions[..i]), actions[i])
  }

  /** How many of the actions adjust. */
  function Adjustments(s: State, actions: seq<Action>): nat {
    if actions == [] then 0
    else
      var init := actions[..|actions| - 1];
      Adjustments(s, init) + if Adjusts(After(s, init), actions[|actions| - 1]) then 1 else 0
  }

  /** The batch size after `n` cuts by a fifth. */
  function BatchAfter(batch: int, n: nat): int {
    if n == 0 then batch else Shrunk(BatchAfter(batch, n - 1), 8, 10)
  }

  lemma {:induction false} BatchShrinks(batch: int, n: nat)
    requires batch >= 10
    ensures 10 <= BatchAfter(batch, n) <= Max(batch - 2 * n, 10)
  {
    if n > 0 {
      BatchShrinks(batch, n - 1);
    }
  }

  /**
   * A lasting overload of the VM, decided by the rules: after `n` adjustments, whatever was reported, judged
   * or only looked at in between, there are `n` fetchers and `n` pushers fewer, down to one, the batch was cut
   * `n` times, down to ten, and there is back-pressure of at least 50 ms.
   */
  lemma {:induction false} OverloadWearsDown(s: State, actions: seq<Action>)
    requires InBounds(s.current)
    requires LastingOverload(s, actions)
    ensures var n, c, d := Adjustments(s, actions), s.current, After(s, actions).current;
            && d.fetch == Max(c.fetch - n, 1) && d.push == Max(c.push - n, 1)
            && d.batch == BatchAfter(c.batch, n) <= Max(c.batch - 2 * n, 10)
            && (n > 0 ==> d.backPressure && d.throttleDelay >= 50) && InBounds(d)
  {
    hide ByRules, OnlyOverloaded, Adjusts, Next, LastingOverload, Shrunk;
    var n := Adjustments(s, actions);
    BatchShrinks(s.current.batch, n);
    if actions != [] {
      var init, action := actions[..|actions| - 1], actions[|actions| - 1];
      OverloadLastsBefore(s, actions);
      OverloadWearsDown(s, init);
      WearStep(After(s, init), action);
    }
  }

  lemma OverloadLastsBefore(s: State, actions: seq<Action>)
    requires LastingOverload(s, actions) && actions != []
    ensures var init, action := actions[..|actions| - 1], actions[|actions| - 1];
            && LastingOverload(s, init) && ByRules(After(s, init), action) && OnlyOverloaded(After(s, init), action)
  {
    hide ByRules, OnlyOverloaded, After;
    var init := actions[..|actions| - 1];
    forall i | 0 <= i < |init|
      ensures ByRules(After(s, init[..i]), init[i]) && OnlyOverloaded(After(s, init[..i]), init[i])
    {
      assert init[..i] == actions[..i] && init[i] == actions[i];
    }
    assert ByRules(After(s, actions[..|init|]), actions[|init|]);
  }

  lemma WearStep(s: State, action: Action)
    requires ByRules(s, action) && InBounds(s.current) && OnlyOverloaded(s, action)
    ensures var c, d := s.current, Next(s, action).current;
            if Adjusts(s, action) then
              && d.fetch == Max(c.fetch - 1, 1) && d.push == Max(c.push - 1, 1) && d.batch == Shrunk(c.batch, 8, 10)
              && d.backPressure && d.throttleDelay >= 50 && InBounds(d)
            else d == c
  {
    hide Next, ByRules, Over, Adjusts;
    if Adjusts(s, action) {
      OverloadRelieves(s, action);
    } else {
      OnlyAdjustmentsChange(s, action);
    }
  }

  /** The time of the last action that changed the configuration, if any did. */
  function LastChange(s: State, actions: seq<Action>): Option<int> {
    if actions == [] then s.last
    else
      var init, action := actions[..|actions| - 1], actions[|actions| - 1];
      if action.Analyze? && After(s, actions).current != After(s, init).current then Some(action.now)
      else LastChange(s, init)
  }

  lemma ChangeIsRecorded(s: State, action: Action)
    ensures var t := Next(s, action);
            && (t.current != s.current ==>
                  && Adjusts(s, action) && t.last == Some(action.now) && t.history != []
                  && t.history[|t.history| - 1] == Adjustment(s.current, t.current, s.vm.value, s.cloud.value, 0.5)
                  && t.history[..|t.history| - 1] == if |s.history| < 50 then s.history else s.history[|s.history| + 1 - |t.history|..])
            && (t.current == s.current ==> t.last == s.last && |t.history| == |s.history|)
  {
    hide Decided, Learned, Observed, EventOf, Analyzed;
    if action.Analyze? {
      AnalysisIsRecorded(s, action.now, action.slot, action.examples);
    }
  }

  lemma AnalysisIsRecorded(s: State, now: int, slot: Slot, examples: seq<Example>)
    ensures var t := Analyzed(s, now, slot, examples);
            && (t.current != s.current ==>
                  && ShouldAdjust(s, now) && t.last == Some(now)
                  && t.history == Capped(s.history, Adjustment(s.current, t.current, s.vm.value, s.cloud.value, 0.5), MAX_HISTORY))
            && (t.current == s.current ==> t == s)
  {
    hide Decided, Capped;
  }

  /** Changes are at least thirty seconds apart in every run. */
  lemma {:induction false} ChangesAreSpaced(s: State, actions: seq<Action>)
    ensures After(s, actions).last == LastChange(s, actions)
    ensures actions != [] ==>
              var init, action := actions[..|actions| - 1], actions[|actions| - 1];
              After(s, actions).current != After(s, init).current && LastChange(s, init).Some? ==>
                action.Analyze? && action.now >= LastChange(s, init).value + 30000
  {
    hide Next;
    if actions != [] {
      var init := actions[..|actions| - 1];
      ChangesAreSpaced(s, init);
      ChangeIsRecorded(After(s, init), actions[|actions| - 1]);
    }
  }

  /** Each recorded adjustment starts from the configuration the one before it left, and the last one left the current one. */
  ghost predicate Chained(s: State) {
    && (forall k :: 0 < k < |s.history| ==> s.history[k].oldConfig == s.history[k - 1].newConfig)
    && (s.history != [] ==> s.history[|s.history| - 1].newConfig == s.current)
    && (forall k :: 0 <= k < |s.history| ==> s.history[k].oldConfig != s.history[k].newConfig)
    && |s.history| <= 50
  }

  lemma StepKeepsChain(s: State, action: Action)
    requires Chained(s)
    ensures Chained(Next(s, action))
  {
    hide Decided, Learned, Capped, Elapsed, Observed, EventOf, Chained;
    match action
    case ReportVM(_) => SameChain(s, Next(s, action));
    case ReportCloud(_) => SameChain(s, Next(s, action));
    case Analyze(now, slot, examples) =>
      if ShouldAdjust(s, now) && Decided(s, now, slot, examples) != s.current {
        var a := Adjustment(s.current, Decided(s, now, slot, examples), s.vm.value, s.cloud.value, 0.5);
        ChainGrows(s, a, Next(s, action));
      }
    case Judge(effectiveness, _, _, _) => SameChain(s, Next(s, action));
  }

  /** Nothing that the chain is about changes. */
  lemma SameChain(s: State, t: State)
    requires Chained(s) && t.current == s.current && |t.history| == |s.history|
    requires forall k :: 0 <= k < |s.history| ==>
      t.history[k].oldConfig == s.history[k].oldConfig && t.history[k].newConfig == s.history[k].newConfig
    ensures Chained(t)
  {
  }

  lemma ChainGrows(s: State, a: Adjustment, t: State)
    requires Chained(s) && a.oldConfig == s.current != a.newConfig
    requires t.history == Capped(s.history, a, MAX_HISTORY) && t.current == a.newConfig
    ensures Chained(t)
  {
  }

  /** The history is the chain of the latest changes in every run. */
  lemma {:induction false} HistoryIsAChain(actions: seq<Action>, s: State)
    requires Runs(actions, s)
    ensures Chained(s)
  {
    if actions != [] {
      hide Next, Possible, Chained;
      var init, action := actions[..|actions| - 1], actions[|actions| - 1];
      var before :| Runs(init, before) && Possible(before, action) && s == Next(before, action)
                    && (action.Judge? ==> action.effectiveness >= 0.0);
      HistoryIsAChain(init, before);
      StepKeepsChain(before, action);
    }
  }

  // ---------- what is learned ----------

  /**
   * A judgement only ever concerns the last adjustment, and teaches something exactly if its telemetry names a
   * node, the VM's before the cloud side's: then an event and an example with the score, and a pattern only for
   * a score above 0.7.
   */
  lemma JudgementTeaches(s: State, action: Action)
    requires action.Judge? && s.history != []
    ensures var t, n, score := Next(s, action), |s.history| - 1, action.effectiveness;
            var a := s.history[n];
            var seen := if a.vm.nodeID != "" then a.vm else a.cloud;
            && t == s.(history := s.history[n := a.(effectiveness := score)], knowledge := t.knowledge)
            && (seen.nodeID == "" ==> t.knowledge == s.knowledge)
            && (seen.nodeID != "" ==>
                  var c, k := ExtractConditions(seen, action.judgedIn), t.knowledge;
                  && k.events != [] && k.examples != []
                  && k.examples[|k.examples| - 1] == Example(FeaturesOf(c), a.newConfig, score)
                  && k.events[|k.events| - 1] ==
                       LearningEvent(c, a.newConfig, score, if score >= 0.7 then Success else if score >= 0.5 then Partial else Failure))
            && (score <= 0.7 ==> t.knowledge.patterns == s.knowledge.patterns)
  {
    hide ExtractConditions, FeaturesOf, Reinforced, Accuracy;
  }
}
