/**
 * What the circuit breaker's fields mean: over every run they are read off the calls and results so far,
 * and each step's outcome is decided by them.
 */
module BreakerHistory {
  import opened Common
  import opened CircuitBreaker

  /** A run from a new breaker. */
  ghost predicate History(c: Config, states: seq<System>, steps: seq<Step>) {
    Run(c, states, steps) && Initial(states[0])
  }

  // ---------- reading the history ----------

  /** The step begins a new count: it changes the generation or takes an open breaker to half-open. */
  predicate BeginsCount(s: System, t: System) {
    t.b.generation != s.b.generation || Entered(s, t)
  }

  /** The step that began the current count; 0 before any did. */
  function CountStart(states: seq<System>, i: nat): (k: nat)
    requires i < |states|
    ensures k <= i
  {
    if i == 0 then 0 else if BeginsCount(states[i - 1], states[i]) then i - 1 else CountStart(states, i - 1)
  }

  predicate Admits(s: System, t: System) {
    t.admitted > s.admitted
  }

  /** Calls admitted by the steps from `low` on, before `high`. */
  function Admissions(states: seq<System>, low: nat, high: nat): nat
    requires low <= high < |states|
  {
    if low == high then 0
    else Admissions(states, low, high - 1) + if Admits(states[high - 1], states[high]) then 1 else 0
  }

  predicate IsResult(step: Step, generation: nat, success: bool) {
    step.Return? && step.generation == generation && step.success == success
  }

  /** Results of calls of the generation, good or bad, among those steps. */
  function Results(steps: seq<Step>, generation: nat, success: bool, low: nat, high: nat): nat
    requires low <= high <= |steps|
  {
    if low == high then 0
    else Results(steps, generation, success, low, high - 1) + if IsResult(steps[high - 1], generation, success) then 1 else 0
  }

  /** How many results of the kind there were since the last one of the other kind. */
  function Streaking(steps: seq<Step>, generation: nat, success: bool, low: nat, high: nat): nat
    requires low <= high <= |steps|
  {
    if low == high || IsResult(steps[high - 1], generation, !success) then 0
    else Streaking(steps, generation, success, low, high - 1) + if IsResult(steps[high - 1], generation, success) then 1 else 0
  }

  predicate IsSlow(c: Config, step: Step, generation: nat) {
    step.Return? && step.generation == generation && 0 < c.slowCallThreshold < step.duration
  }

  function SlowResults(c: Config, steps: seq<Step>, generation: nat, low: nat, high: nat): nat
    requires low <= high <= |steps|
  {
    if low == high then 0
    else SlowResults(c, steps, generation, low, high - 1) + if IsSlow(c, steps[high - 1], generation) then 1 else 0
  }

  /** The counts that the calls and results since the start of the current count amount to. */
  function CountsSoFar(c: Config, states: seq<System>, steps: seq<Step>, i: nat): Counts
    requires i < |states| == |steps| + 1
  {
    var low, g := CountStart(states, i), states[i].b.generation;
    Counts(Admissions(states, low, i), Results(steps, g, true, low, i), Results(steps, g, false, low, i),
           Streaking(steps, g, true, low, i), Streaking(steps, g, false, low, i), SlowResults(c, steps, g, low, i))
  }

  /** When the step takes effect; a reset of a breaker that is not closed reads the clock a second time. */
  function TimeOf(s: System, step: Step): int {
    if step.ResetCall? && !s.b.mode.Closed? then step.later else step.at
  }

  /** When the current generation began. */
  function GenerationStart(states: seq<System>, steps: seq<Step>, i: nat): int
    requires i < |states| == |steps| + 1
  {
    if i == 0 then states[0].now
    else if states[i].b.generation != states[i - 1].b.generation then TimeOf(states[i - 1], steps[i - 1])
    else GenerationStart(states, steps, i - 1)
  }

  /** When the mode last changed. */
  function ModeStart(states: seq<System>, steps: seq<Step>, i: nat): int
    requires i < |states| == |steps| + 1
  {
    if i == 0 then states[0].now
    else if states[i].b.mode != states[i - 1].b.mode then TimeOf(states[i - 1], steps[i - 1])
    else ModeStart(states, steps, i - 1)
  }

  function ModeChanges(states: seq<System>, i: nat): nat
    requires i < |states|
  {
    if i == 0 then 0 else ModeChanges(states, i - 1) + if states[i].b.mode != states[i - 1].b.mode then 1 else 0
  }

  /** Calls refused so far. */
  function Refusals(states: seq<System>, steps: seq<Step>, i: nat): nat
    requires i < |states| == |steps| + 1
  {
    if i == 0 then 0
    else Refusals(states, steps, i - 1) + if steps[i - 1].Call? && !Admits(states[i - 1], states[i]) then 1 else 0
  }

  // ---------- one step ----------

  /** The counts after a step, in terms of those before it. */
  predicate CountsStep(c: Config, s: System, step: Step, t: System) {
    var n, m, g := if BeginsCount(s, t) then NO_COUNTS else s.b.counts, t.b.counts, t.b.generation;
    && m.requests == n.requests + (if Admits(s, t) then 1 else 0)
    && m.totalSuccesses == n.totalSuccesses + (if IsResult(step, g, true) then 1 else 0)
    && m.totalFailures == n.totalFailures + (if IsResult(step, g, false) then 1 else 0)
    && m.consecutiveSuccesses ==
         (if IsResult(step, g, false) then 0 else n.consecutiveSuccesses + if IsResult(step, g, true) then 1 else 0)
    && m.consecutiveFailures ==
         (if IsResult(step, g, true) then 0 else n.consecutiveFailures + if IsResult(step, g, false) then 1 else 0)
    && m.slowCalls == n.slowCalls + (if IsSlow(c, step, g) then 1 else 0)
  }

  lemma CallCounts(c: Config, s: System, step: Step)
    requires Enabled(s, step) && step.Call?
    ensures CountsStep(c, s, step, Execute(c, s, step))
  {
  }

  lemma ReturnCounts(c: Config, s: System, step: Step)
    requires step.Return? && step.generation <= s.b.generation && Enabled(s, step)
    ensures CountsStep(c, s, step, Execute(c, s, step)) && !Admits(s, Execute(c, s, step))
  {
  }

  lemma ResetCounts(c: Config, s: System, step: Step)
    requires Enabled(s, step) && step.ResetCall?
    ensures CountsStep(c, s, step, Execute(c, s, step)) && !Admits(s, Execute(c, s, step))
  {
  }

  lemma StepCounts(c: Config, s: System, step: Step)
    requires Inv(c, s) && Enabled(s, step)
    ensures CountsStep(c, s, step, Execute(c, s, step))
    ensures Admits(s, Execute(c, s, step)) ==> step.Call?
  {
    hide CountsStep, Execute;
    match step
    case Call(_, _) => CallCounts(c, s, step);
    case Return(_, generation, _, _, _) => ReturnCounts(c, s, step);
    case ResetCall(_, _) => ResetCounts(c, s, step);
  }

  lemma {:induction false} SumsSplit(c: Config, states: seq<System>, steps: seq<Step>, i: nat)
    requires 0 < i < |states| == |steps| + 1
    requires CountsStep(c, states[i - 1], steps[i - 1], states[i])
    requires BeginsCount(states[i - 1], states[i]) || states[i - 1].b.counts == CountsSoFar(c, states, steps, i - 1)
    ensures states[i].b.counts == CountsSoFar(c, states, steps, i)
  {
    hide IsResult, IsSlow, Admits;
    var low, g := CountStart(states, i), states[i].b.generation;
    if BeginsCount(states[i - 1], states[i]) {
      assert Admissions(states, low, i - 1) == Results(steps, g, true, low, i - 1) == Results(steps, g, false, low, i - 1) == 0;
      assert Streaking(steps, g, true, low, i - 1) == Streaking(steps, g, false, low, i - 1) == SlowResults(c, steps, g, low, i - 1) == 0;
    } else {
      assert low == CountStart(states, i - 1) && g == states[i - 1].b.generation;
    }
    assert states[i].b.counts.requests == Admissions(states, low, i);
    assert states[i].b.counts.totalSuccesses == Results(steps, g, true, low, i);
    assert states[i].b.counts.totalFailures == Results(steps, g, false, low, i);
    assert states[i].b.counts.slowCalls == SlowResults(c, steps, g, low, i);
    assert states[i].b.counts.consecutiveSuccesses == Streaking(steps, g, true, low, i);
    assert states[i].b.counts.consecutiveFailures == Streaking(steps, g, false, low, i);
  }

  /** The breaker's counts are exactly those of the calls and results since the current count began. */
  lemma {:induction false} CountsAreTheHistory(c: Config, states: seq<System>, steps: seq<Step>, i: nat)
    requires History(c, states, steps) && i < |states|
    ensures states[i].b.counts == CountsSoFar(c, states, steps, i)
  {
    if i > 0 {
      hide Execute, Enabled, Inv, CountsStep, CountsSoFar;
      CountsAreTheHistory(c, states, steps, i - 1);
      BreakerConservation(c, states, steps, i - 1);
      assert Enabled(states[i - 1], steps[i - 1]) && states[i] == Execute(c, states[i - 1], steps[i - 1]);
      StepCounts(c, states[i - 1], steps[i - 1]);
      SumsSplit(c, states, steps, i);
    }
  }

  // ---------- times ----------

  /** The expiry belongs to the generation of a closed breaker and to the opening of an open one. */
  predicate Timed(c: Config, b: Breaker, generationStart: int, modeStart: int) {
    && b.stateChangeTime == modeStart
    && b.expiry == match b.mode
                   case Closed => if b.generation == 0 || c.interval == 0 then None else Some(generationStart + c.interval)
                   case Open => Some(modeStart + c.timeout)
                   case HalfOpen => None
  }

  predicate TimesStep(c: Config, s: System, step: Step, t: System, generationStart: int, modeStart: int) {
    && Timed(c, t.b, if t.b.generation != s.b.generation then TimeOf(s, step) else generationStart,
             if t.b.mode != s.b.mode then TimeOf(s, step) else modeStart)
    && t.b.stateChanges == s.b.stateChanges + (if t.b.mode != s.b.mode then 1 else 0)
    && t.b.rejectedRequests == s.b.rejectedRequests + (if step.Call? && !Admits(s, t) then 1 else 0)
  }

  lemma CallTimes(c: Config, s: System, step: Step, generationStart: int, modeStart: int)
    requires Enabled(s, step) && step.Call? && Timed(c, s.b, generationStart, modeStart)
    ensures TimesStep(c, s, step, Execute(c, s, step), generationStart, modeStart)
  {
  }

  lemma ReturnTimes(c: Config, s: System, step: Step, generationStart: int, modeStart: int)
    requires Enabled(s, step) && step.Return? && Timed(c, s.b, generationStart, modeStart)
    ensures TimesStep(c, s, step, Execute(c, s, step), generationStart, modeStart)
  {
  }

  lemma ResetTimes(c: Config, s: System, step: Step, generationStart: int, modeStart: int)
    requires Enabled(s, step) && step.ResetCall? && Timed(c, s.b, generationStart, modeStart)
    ensures TimesStep(c, s, step, Execute(c, s, step), generationStart, modeStart)
  {
  }

  /**
   * In every run a closed breaker's interval is counted from the start of its generation, which the first
   * one does not have, and an open one's timeout from its opening; changes and refusals are all counted.
   */
  lemma {:induction false} TimesAreTheHistory(c: Config, states: seq<System>, steps: seq<Step>, i: nat)
    requires History(c, states, steps) && i < |states|
    ensures Timed(c, states[i].b, GenerationStart(states, steps, i), ModeStart(states, steps, i))
    ensures states[i].b.stateChanges == ModeChanges(states, i)
    ensures states[i].b.rejectedRequests == Refusals(states, steps, i)
  {
    if i > 0 {
      hide Execute, Enabled, Timed, TimesStep;
      TimesAreTheHistory(c, states, steps, i - 1);
      assert Enabled(states[i - 1], steps[i - 1]) && states[i] == Execute(c, states[i - 1], steps[i - 1]);
      StepTimes(c, states[i - 1], steps[i - 1], GenerationStart(states, steps, i - 1), ModeStart(states, steps, i - 1));
      TimesAdvance(c, states, steps, i);
    }
  }

  lemma StepTimes(c: Config, s: System, step: Step, generationStart: int, modeStart: int)
    requires Enabled(s, step) && Timed(c, s.b, generationStart, modeStart)
    ensures TimesStep(c, s, step, Execute(c, s, step), generationStart, modeStart)
  {
    hide Execute, Timed, TimesStep;
    match step
    case Call(_, _) => CallTimes(c, s, step, generationStart, modeStart);
    case Return(_, _, _, _, _) => ReturnTimes(c, s, step, generationStart, modeStart);
    case ResetCall(_, _) => ResetTimes(c, s, step, generationStart, modeStart);
  }

  lemma TimesAdvance(c: Config, states: seq<System>, steps: seq<Step>, i: nat)
    requires 0 < i < |states| == |steps| + 1
    requires TimesStep(c, states[i - 1], steps[i - 1], states[i], GenerationStart(states, steps, i - 1), ModeStart(states, steps, i - 1))
    requires states[i - 1].b.stateChanges == ModeChanges(states, i - 1)
    requires states[i - 1].b.rejectedRequests == Refusals(states, steps, i - 1)
    ensures Timed(c, states[i].b, GenerationStart(states, steps, i), ModeStart(states, steps, i))
    ensures states[i].b.stateChanges == ModeChanges(states, i)
    ensures states[i].b.rejectedRequests == Refusals(states, steps, i)
  {
    hide Timed, TimeOf, Admits;
  }

  // ---------- what decides a step ----------

  /** More than the interval has passed since a closed breaker began a generation with one. */
  predicate IntervalOver(c: Config, states: seq<System>, steps: seq<Step>, i: nat, at: int)
    requires i < |states| == |steps| + 1
  {
    var b := states[i].b;
    b.mode.Closed? && b.generation > 0 && c.interval != 0 && at > GenerationStart(states, steps, i) + c.interval
  }

  /** More than the timeout has passed since the breaker opened. */
  predicate TimeoutOver(c: Config, states: seq<System>, steps: seq<Step>, i: nat, at: int)
    requires i < |states| == |steps| + 1
  {
    states[i].b.mode.Open? && at > ModeStart(states, steps, i) + c.timeout
  }

  /**
   * A call is admitted exactly if the concurrent calls are below their limit, when there is one, and the
   * breaker is closed, or is half-open, maybe only now, with fewer calls admitted so far than it allows.
   */
  predicate MayEnter(c: Config, states: seq<System>, steps: seq<Step>, i: nat, call: Step)
    requires i < |states| == |steps| + 1 && call.Call?
  {
    && (c.maxConcurrentCalls <= 0 || call.concurrent < c.maxConcurrentCalls)
    && match states[i].b.mode
       case Closed => true
       case HalfOpen => Admissions(states, CountStart(states, i), i) < c.maxRequests
       case Open => TimeoutOver(c, states, steps, i, call.at) && c.maxRequests > 0
  }

  /**
   * What a call does, decided by the history: whether it is admitted, that it begins a generation exactly
   * when the interval is over, and goes half-open exactly when the timeout is.
   */
  lemma CallDecided(c: Config, states: seq<System>, steps: seq<Step>, i: nat)
    requires History(c, states, steps) && i < |steps| && steps[i].Call?
    ensures var s, t, at := states[i], states[i + 1], steps[i].at;
            var entered := MayEnter(c, states, steps, i, steps[i]);
            && t.admitted == s.admitted + (if entered then 1 else 0)
            && t.inFlight == (if entered then s.inFlight + multiset{t.b.generation} else s.inFlight)
            && t.b.generation == s.b.generation + (if IntervalOver(c, states, steps, i, at) then 1 else 0)
            && t.b.mode == if TimeoutOver(c, states, steps, i, at) then HalfOpen else s.b.mode
  {
    hide GenerationStart, ModeStart, Admissions, Execute, Enabled, Timed;
    TimesAreTheHistory(c, states, steps, i);
    RequestsAreAdmissions(c, states, steps, i);
    StepOfRun(c, states, steps, i);
    CallStep(c, states[i], steps[i], GenerationStart(states, steps, i), ModeStart(states, steps, i));
  }

  lemma RunLength(c: Config, states: seq<System>, steps: seq<Step>)
    requires Run(c, states, steps)
    ensures |states| == |steps| + 1
  {
  }

  lemma StepOfRun(c: Config, states: seq<System>, steps: seq<Step>, i: nat)
    requires Run(c, states, steps) && i < |steps|
    ensures Enabled(states[i], steps[i]) && states[i + 1] == Execute(c, states[i], steps[i])
  {
  }

  lemma CallStep(c: Config, s: System, call: Step, generationStart: int, modeStart: int)
    requires Enabled(s, call) && call.Call? && Timed(c, s.b, generationStart, modeStart)
    ensures var t, at := Execute(c, s, call), call.at;
            var timeoutOver := s.b.mode.Open? && at > modeStart + c.timeout;
            var intervalOver := s.b.mode.Closed? && s.b.generation > 0 && c.interval != 0 && at > generationStart + c.interval;
            var entered := (c.maxConcurrentCalls <= 0 || call.concurrent < c.maxConcurrentCalls)
                           && match s.b.mode
                              case Closed => true
                              case HalfOpen => s.b.counts.requests < c.maxRequests
                              case Open => timeoutOver && c.maxRequests > 0;
            && t.admitted == s.admitted + (if entered then 1 else 0)
            && t.inFlight == (if entered then s.inFlight + multiset{t.b.generation} else s.inFlight)
            && t.b.generation == s.b.generation + (if intervalOver then 1 else 0)
            && t.b.mode == if timeoutOver then HalfOpen else s.b.mode
  {
  }

  lemma RequestsAreAdmissions(c: Config, states: seq<System>, steps: seq<Step>, i: nat)
    requires History(c, states, steps) && i < |states|
    ensures states[i].b.counts.requests == Admissions(states, CountStart(states, i), i)
  {
    CountsAreTheHistory(c, states, steps, i);
  }

  /**
   * What a result does: exactly a failure of the current generation whose counts are ready to trip opens a
   * breaker that is not open, and exactly a success that makes the streak long enough closes a half-open one,
   * which begins a generation.  Anything else leaves mode and generation alone.
   */
  lemma ResultDecided(c: Config, states: seq<System>, steps: seq<Step>, i: nat)
    requires History(c, states, steps) && i < |steps| && steps[i].Return?
    ensures var s, t, step, g := states[i], states[i + 1], steps[i], states[i].b.generation;
            var opens := !s.b.mode.Open? && IsResult(step, g, false) && c.readyToTrip(CountsSoFar(c, states, steps, i + 1));
            var closes := s.b.mode.HalfOpen? && IsResult(step, g, true)
                          && Streaking(steps, g, true, CountStart(states, i), i) + 1 >= c.maxRequests;
            && t.b.mode == (if opens then Open else if closes then Closed else s.b.mode)
            && t.b.generation == g + (if closes then 1 else 0)
            && t.inFlight == s.inFlight - multiset{step.generation} && t.admitted == s.admitted
  {
    hide CountsSoFar, CountStart, Streaking;
    CountsAreTheHistory(c, states, steps, i + 1);
    StreakIsTheHistory(c, states, steps, i);
    assert Enabled(states[i], steps[i]) && states[i + 1] == Execute(c, states[i], steps[i]);
  }

  lemma StreakIsTheHistory(c: Config, states: seq<System>, steps: seq<Step>, i: nat)
    requires History(c, states, steps) && i < |states|
    ensures states[i].b.counts.consecutiveSuccesses == Streaking(steps, states[i].b.generation, true, CountStart(states, i), i)
  {
    CountsAreTheHistory(c, states, steps, i);
  }

  /** A reset closes the breaker in a new generation: the next one, or the one after that if it was not closed. */
  lemma ResetDecided(c: Config, states: seq<System>, steps: seq<Step>, i: nat)
    requires History(c, states, steps) && i < |steps| && steps[i].ResetCall?
    ensures var s, t := states[i], states[i + 1];
            && t.b.mode.Closed? && t.inFlight == s.inFlight && t.admitted == s.admitted
            && t.b.generation == s.b.generation + (if s.b.mode.Closed? then 1 else 2)
            && CountsSoFar(c, states, steps, i + 1) == NO_COUNTS
  {
    hide CountsSoFar;
    CountsAreTheHistory(c, states, steps, i + 1);
    assert Enabled(states[i], steps[i]) && states[i + 1] == Execute(c, states[i], steps[i]);
  }

  // ---------- old failures are forgotten ----------

  /** A breaker that is closed without having begun a generation was closed before. */
  lemma ClosedBefore(c: Config, s: System, step: Step)
    requires Enabled(s, step)
    ensures var t := Execute(c, s, step); t.b.mode.Closed? && t.b.generation == s.b.generation ==> s.b.mode.Closed?
    ensures Execute(c, s, step).now >= s.now && Execute(c, s, step).now >= TimeOf(s, step) >= s.now
  {
  }

  /** Since its count began, a closed breaker past its first generation has been closed in that generation. */
  lemma {:induction false} ClosedSinceCountStart(c: Config, states: seq<System>, steps: seq<Step>, i: nat, k: nat)
    requires History(c, states, steps) && i < |states| && states[i].b.mode.Closed?
    requires CountStart(states, i) < k <= i
    ensures states[k].b.generation == states[i].b.generation && states[k].b.mode.Closed?
    ensures GenerationStart(states, steps, k) == GenerationStart(states, steps, i)
    decreases i
  {
    if k < i {
      hide Execute, Enabled, TimeOf;
      assert Enabled(states[i - 1], steps[i - 1]) && states[i] == Execute(c, states[i - 1], steps[i - 1]);
      ClosedBefore(c, states[i - 1], steps[i - 1]);
      assert !BeginsCount(states[i - 1], states[i]);
      ClosedSinceCountStart(c, states, steps, i - 1, k);
    }
  }

  lemma {:induction false} StartedBefore(c: Config, states: seq<System>, steps: seq<Step>, i: nat)
    requires History(c, states, steps) && i < |states|
    ensures |states| == |steps| + 1 && GenerationStart(states, steps, i) <= states[i].now
  {
    RunLength(c, states, steps);
    if i > 0 {
      hide Execute, Enabled, TimeOf, Run, Initial;
      StartedBefore(c, states, steps, i - 1);
      StepOfRun(c, states, steps, i - 1);
      ClosedBefore(c, states[i - 1], steps[i - 1]);
    }
  }

  /** The step that began the count of a closed breaker past its first generation began that generation. */
  lemma {:induction false} CountStartBegins(c: Config, states: seq<System>, steps: seq<Step>, i: nat)
    requires History(c, states, steps) && i < |states| && states[i].b.mode.Closed? && states[i].b.generation > 0
    ensures var k := CountStart(states, i);
            && k < i && states[k + 1].b.generation != states[k].b.generation
            && GenerationStart(states, steps, i) == TimeOf(states[k], steps[k])
  {
    hide Execute, Enabled, TimeOf;
    if i > 0 {
      assert Enabled(states[i - 1], steps[i - 1]) && states[i] == Execute(c, states[i - 1], steps[i - 1]);
      ClosedBefore(c, states[i - 1], steps[i - 1]);
      if !BeginsCount(states[i - 1], states[i]) {
        CountStartBegins(c, states, steps, i - 1);
      }
    }
  }

  /** Every call counted by a closed breaker with an interval was admitted in the interval that its generation began with. */
  lemma AdmittedInInterval(c: Config, states: seq<System>, steps: seq<Step>, i: nat, k: nat)
    requires History(c, states, steps) && i < |states| && states[i].b.mode.Closed? && states[i].b.generation > 0
    requires c.interval > 0 && CountStart(states, i) <= k < i && Admits(states[k], states[k + 1])
    ensures var start := GenerationStart(states, steps, i); start <= steps[k].at <= start + c.interval
  {
    hide Execute, Enabled;
    BreakerConservation(c, states, steps, k);
    assert Enabled(states[k], steps[k]) && states[k + 1] == Execute(c, states[k], steps[k]);
    StepCounts(c, states[k], steps[k]);
    CountStartBegins(c, states, steps, i);
    if k > CountStart(states, i) {
      ClosedSinceCountStart(c, states, steps, i, k);
      ClosedSinceCountStart(c, states, steps, i, k + 1);
      CallDecided(c, states, steps, k);
      StartedBefore(c, states, steps, k);
      ClosedBefore(c, states[k], steps[k]);
    }
  }

  /**
   * Old failures are forgotten: a closed breaker with an interval trips only on counts of calls that were all
   * admitted within one interval, and counts no more results than calls.
   */
  lemma TripsOnOneInterval(c: Config, states: seq<System>, steps: seq<Step>, i: nat)
    requires History(c, states, steps) && i < |steps| && c.interval > 0
    requires states[i].b.mode.Closed? && states[i].b.generation > 0 && states[i + 1].b.mode.Open?
    ensures var start, counts := GenerationStart(states, steps, i), CountsSoFar(c, states, steps, i + 1);
            && c.readyToTrip(counts) && counts.totalSuccesses + counts.totalFailures <= counts.requests
            && forall k :: CountStart(states, i + 1) <= k <= i && Admits(states[k], states[k + 1]) ==>
                 start <= steps[k].at <= start + c.interval
  {
    hide Execute, Enabled, CountsSoFar, GenerationStart, Streaking, Admits;
    OpensOnResult(c, states, steps, i);
    ResultDecided(c, states, steps, i);
    BreakerConservation(c, states, steps, i + 1);
    CountsAreTheHistory(c, states, steps, i + 1);
    forall k | CountStart(states, i + 1) <= k <= i && Admits(states[k], states[k + 1])
      ensures var start := GenerationStart(states, steps, i); start <= steps[k].at <= start + c.interval
    {
      AdmittedInInterval(c, states, steps, i, k);
    }
  }

  /** Only a result opens a closed breaker, without beginning a count or admitting a call. */
  lemma OpensOnResult(c: Config, states: seq<System>, steps: seq<Step>, i: nat)
    requires History(c, states, steps) && i < |steps| && states[i].b.mode.Closed? && states[i + 1].b.mode.Open?
    ensures steps[i].Return? && !BeginsCount(states[i], states[i + 1]) && !Admits(states[i], states[i + 1])
    ensures states[i + 1].carried == states[i].carried == 0
  {
    BreakerConservation(c, states, steps, i);
    assert Enabled(states[i], steps[i]) && states[i + 1] == Execute(c, states[i], steps[i]);
  }

  /**
   * With the default settings an open breaker refuses every call for thirty seconds and no longer, and a closed
   * one forgets its counts with the first call after more than a minute of its generation.
   */
  lemma DefaultTimes(states: seq<System>, steps: seq<Step>, i: nat)
    requires History(DEFAULT_CONFIG, states, steps) && i < |steps| && steps[i].Call? && steps[i].concurrent < 100
    ensures var s, t, at := states[i], states[i + 1], steps[i].at;
            && (s.b.mode.Open? ==> (Admits(s, t) <==> at > ModeStart(states, steps, i) + 30_000_000_000))
            && (s.b.mode.Closed? && s.b.generation > 0 ==>
                  (t.b.generation == s.b.generation + 1 <==> at > GenerationStart(states, steps, i) + 60_000_000_000))
  {
    hide ModeStart, GenerationStart, Admissions;
    CallDecided(DEFAULT_CONFIG, states, steps, i);
  }
}
