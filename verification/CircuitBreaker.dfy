/**
 * The circuit breaker: three states, generations, expiry times and counts, with calls in flight
 * across transitions.  Every operation runs under the breaker's lock, so concurrent callers are
 * interleavings of whole operations.
 */
module CircuitBreaker {
  import opened Common

  datatype Mode = Closed | HalfOpen | Open

  datatype Counts = Counts(
    requests: nat, totalSuccesses: nat, totalFailures: nat,
    consecutiveSuccesses: nat, consecutiveFailures: nat, slowCalls: nat)

  const NO_COUNTS := Counts(0, 0, 0, 0, 0, 0)

  /** Durations and times are in the clock's ticks. */
  datatype Config = Config(
    maxRequests: nat, interval: int, timeout: int, maxConcurrentCalls: int,
    slowCallThreshold: int, readyToTrip: Counts -> bool)

  function FailureRate(c: Counts): real {
    if c.requests == 0 then 0.0 else c.totalFailures as real / c.requests as real
  }

  predicate DefaultReadyToTrip(c: Counts) {
    c.requests >= 5 && FailureRate(c) > 0.6
  }

  const SECOND := 1_000_000_000

  const DEFAULT_CONFIG := Config(5, 60 * SECOND, 30 * SECOND, 100, 5 * SECOND, c => DefaultReadyToTrip(c))

  /** The breaker's fields; an `expiry` of `None` is the zero time. */
  datatype Breaker = Breaker(
    mode: Mode, generation: nat, counts: Counts, expiry: Option<int>, stateChangeTime: int,
    rejectedRequests: nat, stateChanges: nat)

  // ---------- the operations on values ----------

  function ToNewGeneration(c: Config, b: Breaker, now: int): Breaker {
    b.(generation := b.generation + 1, counts := NO_COUNTS,
       expiry := match b.mode
                 case Closed => if c.interval == 0 then None else Some(now + c.interval)
                 case HalfOpen => None
                 case Open => b.expiry)
  }

  function SetState(c: Config, b: Breaker, mode: Mode, now: int): Breaker {
    if b.mode == mode then b
    else
      var b' := b.(mode := mode, stateChangeTime := now, stateChanges := b.stateChanges + 1);
      match mode
      case Closed => ToNewGeneration(c, b', now)
      case Open => b'.(expiry := Some(now + c.timeout))
      case HalfOpen => b'.(expiry := None, counts := NO_COUNTS)
  }

  /** The zero time lies before every reading of the clock. */
  predicate Expired(expiry: Option<int>, now: int) {
    expiry.None? || expiry.value < now
  }

  function CurrentState(c: Config, b: Breaker, now: int): Breaker {
    match b.mode
    case Closed => if b.expiry.Some? && Expired(b.expiry, now) then ToNewGeneration(c, b, now) else b
    case Open => if Expired(b.expiry, now) then SetState(c, b, HalfOpen, now) else b
    case HalfOpen => b
  }

  /** The breaker after a request, and whether the request was admitted. */
  function BeforeRequest(c: Config, b: Breaker, now: int, concurrent: int): (Breaker, bool) {
    var b' := CurrentState(c, b, now);
    if b'.mode.Open?
      || (c.maxConcurrentCalls > 0 && concurrent >= c.maxConcurrentCalls)
      || (b'.mode.HalfOpen? && b'.counts.requests >= c.maxRequests)
    then (b'.(rejectedRequests := b'.rejectedRequests + 1), false)
    else (b'.(counts := b'.counts.(requests := b'.counts.requests + 1)), true)
  }

  function OnSuccess(c: Config, b: Breaker, now: int): Breaker {
    var n := b.counts;
    var b' := b.(counts := n.(totalSuccesses := n.totalSuccesses + 1,
                              consecutiveSuccesses := n.consecutiveSuccesses + 1, consecutiveFailures := 0));
    if b'.mode.HalfOpen? && b'.counts.consecutiveSuccesses >= c.maxRequests then SetState(c, b', Closed, now) else b'
  }

  function OnFailure(c: Config, b: Breaker, now: int): Breaker {
    var n := b.counts;
    var b' := b.(counts := n.(totalFailures := n.totalFailures + 1,
                              consecutiveFailures := n.consecutiveFailures + 1, consecutiveSuccesses := 0));
    if c.readyToTrip(b'.counts) then SetState(c, b', Open, now) else b'
  }

  function AfterRequest(c: Config, b: Breaker, generation: nat, success: bool, duration: int, now: int): Breaker {
    if generation != b.generation then b
    else
      var slow := c.slowCallThreshold > 0 && duration > c.slowCallThreshold;
      var b' := if slow then b.(counts := b.counts.(slowCalls := b.counts.slowCalls + 1)) else b;
      if success then OnSuccess(c, b', now) else OnFailure(c, b', now)
  }

  function Reset(c: Config, b: Breaker, now: int, later: int): Breaker {
    SetState(c, ToNewGeneration(c, b, now), Closed, later)
  }

  // ---------- the breaker object ----------

  class CircuitBreaker {
    const config: Config
    var mode: Mode
    var generation: nat
    var counts: Counts
    var expiry: Option<int>
    var stateChangeTime: int
    var rejectedRequests: nat
    var stateChanges: nat

    function Abs(): Breaker
      reads this
    {
      Breaker(mode, generation, counts, expiry, stateChangeTime, rejectedRequests, stateChanges)
    }

    constructor (config: Config, now: int)
      ensures this.config == config
      ensures Abs() == Breaker(Closed, 0, NO_COUNTS, None, now, 0, 0)
    {
      this.config := config;
      mode, generation, counts, expiry := Closed, 0, NO_COUNTS, None;
      stateChangeTime, rejectedRequests, stateChanges := now, 0, 0;
    }

    method StartGeneration(now: int)
      modifies this
      ensures Abs() == ToNewGeneration(config, old(Abs()), now)
    {
      generation := generation + 1;
      counts := NO_COUNTS;
      match mode
      case Closed => expiry := if config.interval == 0 then None else Some(now + config.interval);
      case HalfOpen => expiry := None;
      case Open =>
    }

    method ChangeState(to: Mode, now: int)
      modifies this
      ensures Abs() == SetState(config, old(Abs()), to, now)
    {
      if mode == to { return; }
      mode := to;
      stateChangeTime := now;
      stateChanges := stateChanges + 1;
      match to
      case Closed => StartGeneration(now);
      case Open => expiry := Some(now + config.timeout);
      case HalfOpen =>
        expiry := None;
        counts := NO_COUNTS;
    }

    method Refresh(now: int)
      modifies this
      ensures Abs() == CurrentState(config, old(Abs()), now)
    {
      match mode
      case Closed =>
        if expiry.Some? && Expired(expiry, now) { StartGeneration(now); }
      case Open =>
        if Expired(expiry, now) { ChangeState(HalfOpen, now); }
      case HalfOpen =>
    }

    method Admit(now: int, concurrent: int) returns (admittedIn: Option<nat>)
      modifies this
      ensures Abs() == BeforeRequest(config, old(Abs()), now, concurrent).0
      ensures admittedIn == if BeforeRequest(config, old(Abs()), now, concurrent).1 then Some(generation) else None
    {
      Refresh(now);
      if mode.Open? {
        rejectedRequests := rejectedRequests + 1;
        return None;
      }
      if config.maxConcurrentCalls > 0 && concurrent >= config.maxConcurrentCalls {
        rejectedRequests := rejectedRequests + 1;
        return None;
      }
      if mode.HalfOpen? && counts.requests >= config.maxRequests {
        rejectedRequests := rejectedRequests + 1;
        return None;
      }
      counts := counts.(requests := counts.requests + 1);
      admittedIn := Some(generation);
    }

    method Report(reportedGeneration: nat, success: bool, duration: int, now: int)
      modifies this
      ensures Abs() == AfterRequest(config, old(Abs()), reportedGeneration, success, duration, now)
    {
      if reportedGeneration != generation { return; }
      if config.slowCallThreshold > 0 && duration > config.slowCallThreshold {
        counts := counts.(slowCalls := counts.slowCalls + 1);
      }
      if success {
        counts := counts.(totalSuccesses := counts.totalSuccesses + 1,
                          consecutiveSuccesses := counts.consecutiveSuccesses + 1, consecutiveFailures := 0);
        if mode.HalfOpen? && counts.consecutiveSuccesses >= config.maxRequests { ChangeState(Closed, now); }
      } else {
        counts := counts.(totalFailures := counts.totalFailures + 1,
                          consecutiveFailures := counts.consecutiveFailures + 1, consecutiveSuccesses := 0);
        if config.readyToTrip(counts) { ChangeState(Open, now); }
      }
    }

    method ResetToClosed(now: int, later: int)
      modifies this
      ensures Abs() == Reset(config, old(Abs()), now, later)
    {
      StartGeneration(now);
      ChangeState(Closed, later);
    }
  }

  // ---------- concurrent callers ----------

  /**
   * The breaker with its callers: the generations of the calls in flight, how many calls were ever
   * admitted, and the calls of the current generation that were already in flight when the breaker
   * last entered half-open in this generation, with those of them still in flight.
   */
  datatype System = System(b: Breaker, now: int, inFlight: multiset<nat>, admitted: nat, carried: nat, early: nat)

  datatype Step =
    | Call(at: int, concurrent: int)
    | Return(at: int, generation: nat, success: bool, duration: int, earlyCall: bool)
    | ResetCall(at: int, later: int)

  function Carried(s: System, b: Breaker): nat {
    if b.generation != s.b.generation then 0
    else if s.b.mode.Open? && b.mode.HalfOpen? then s.inFlight[s.b.generation]
    else s.carried
  }

  /** The carried calls still in flight, before the step's own return. */
  function Early(s: System, b: Breaker): nat {
    if b.generation != s.b.generation then 0
    else if s.b.mode.Open? && b.mode.HalfOpen? then s.inFlight[s.b.generation]
    else s.early
  }

  /** A return is of a call in flight: of a carried one, or of another one. */
  predicate Enabled(s: System, step: Step) {
    && s.now <= step.at && (step.ResetCall? ==> step.at <= step.later)
    && (step.Return? ==>
          && step.generation in s.inFlight
          && if step.earlyCall then step.generation == s.b.generation && s.early > 0
             else step.generation == s.b.generation ==> s.inFlight[step.generation] > s.early)
  }

  function Execute(c: Config, s: System, step: Step): System
    requires Enabled(s, step)
  {
    match step
    case Call(at, concurrent) =>
      var (b, ok) := BeforeRequest(c, s.b, at, concurrent);
      System(b, at, if ok then s.inFlight + multiset{b.generation} else s.inFlight,
             if ok then s.admitted + 1 else s.admitted, Carried(s, b), Early(s, b))
    case Return(at, generation, success, duration, earlyCall) =>
      var b := AfterRequest(c, s.b, generation, success, duration, at);
      System(b, at, s.inFlight - multiset{generation}, s.admitted, Carried(s, b),
             if earlyCall && Early(s, b) > 0 then Early(s, b) - 1 else Early(s, b))
    case ResetCall(at, later) =>
      var b := Reset(c, s.b, at, later);
      System(b, later, s.inFlight, s.admitted, Carried(s, b), Early(s, b))
  }

  predicate Initial(s: System) {
    s.b == Breaker(Closed, 0, NO_COUNTS, None, s.now, 0, 0) && s.inFlight == multiset{} && s.admitted == 0 && s.carried == 0
    && s.early == 0
  }

  ghost predicate Run(c: Config, states: seq<System>, steps: seq<Step>) {
    && |states| == |steps| + 1
    && forall i :: 0 <= i < |steps| ==> Enabled(states[i], steps[i]) && states[i + 1] == Execute(c, states[i], steps[i])
  }

  /** Every admitted call of the current generation is accounted for exactly once. */
  predicate Accounted(s: System) {
    s.b.counts.totalSuccesses + s.b.counts.totalFailures + s.inFlight[s.b.generation] == s.b.counts.requests + s.carried
  }

  ghost predicate Inv(c: Config, s: System) {
    && Accounted(s)
    && (forall g :: g in s.inFlight ==> g <= s.b.generation)
    && (s.b.mode.HalfOpen? ==> s.b.counts.requests <= c.maxRequests && s.b.expiry.None?)
    && (s.b.mode.Open? ==> s.b.expiry == Some(s.b.stateChangeTime + c.timeout))
    && s.b.stateChangeTime <= s.now
    && (s.b.mode.Closed? ==> s.carried == 0)
    && s.b.counts.consecutiveSuccesses <= s.b.counts.totalSuccesses
    && s.early <= s.carried && s.early <= s.inFlight[s.b.generation]
  }

  lemma CallKeepsInv(c: Config, s: System, step: Step)
    requires Inv(c, s) && Enabled(s, step) && step.Call?
    ensures Inv(c, Execute(c, s, step))
  {
    var t := Execute(c, s, step);
    var b := CurrentState(c, s.b, step.at);
    assert s.b.generation + 1 !in s.inFlight;
    assert b.generation != s.b.generation ==> b.generation == s.b.generation + 1;
    forall g | g in t.inFlight ensures g <= t.b.generation {
      assert g in s.inFlight || g == b.generation;
    }
  }

  lemma ReturnKeepsInv(c: Config, s: System, step: Step)
    requires Inv(c, s) && Enabled(s, step) && step.Return?
    ensures Inv(c, Execute(c, s, step))
  {
    var t := Execute(c, s, step);
    assert step.generation <= s.b.generation;
    assert s.b.generation + 1 !in s.inFlight;
    forall g | g in t.inFlight ensures g <= t.b.generation {
      assert g in s.inFlight;
    }
    if step.generation != s.b.generation {
      assert t.b == s.b && t.inFlight[s.b.generation] == s.inFlight[s.b.generation];
    } else {
      assert t.inFlight[s.b.generation] == s.inFlight[s.b.generation] - 1;
    }
  }

  lemma ResetKeepsInv(c: Config, s: System, step: Step)
    requires Inv(c, s) && Enabled(s, step) && step.ResetCall?
    ensures Inv(c, Execute(c, s, step))
  {
    assert s.b.generation + 1 !in s.inFlight && s.b.generation + 2 !in s.inFlight;
  }

  lemma StepKeepsInv(c: Config, s: System, step: Step)
    requires Inv(c, s) && Enabled(s, step)
    ensures Inv(c, Execute(c, s, step))
  {
    match step
    case Call(_, _) => CallKeepsInv(c, s, step);
    case Return(_, _, _, _, _) => ReturnKeepsInv(c, s, step);
    case ResetCall(_, _) => ResetKeepsInv(c, s, step);
  }

  /**
   * Conservation under every interleaving: successes, failures and in-flight calls of the current
   * generation add up to the requests counted plus the calls carried over the last half-open entry.
   */
  lemma {:induction false} BreakerConservation(c: Config, states: seq<System>, steps: seq<Step>, i: nat)
    requires Run(c, states, steps) && Initial(states[0]) && i < |states|
    ensures Inv(c, states[i]) && Accounted(states[i])
  {
    if i > 0 {
      BreakerConservation(c, states, steps, i - 1);
      StepKeepsInv(c, states[i - 1], steps[i - 1]);
    }
  }

  /** A new generation starts with no carried call: its accounting is exact. */
  lemma NewGenerationIsExact(c: Config, s: System, step: Step)
    requires Inv(c, s) && Enabled(s, step) && Execute(c, s, step).b.generation != s.b.generation
    ensures var t := Execute(c, s, step);
            && t.carried == 0
            && t.b.counts.totalSuccesses + t.b.counts.totalFailures + t.inFlight[t.b.generation] == t.b.counts.requests
  {
    StepKeepsInv(c, s, step);
  }

  // ---------- Open ----------

  /** While open, a call is refused until more than the timeout has passed since the breaker opened. */
  lemma OpenRefuses(c: Config, s: System, step: Step)
    requires Inv(c, s) && Enabled(s, step) && s.b.mode.Open? && !step.ResetCall?
    ensures var t := Execute(c, s, step);
            && (t.b.mode.Open? || t.b.mode.HalfOpen?)
            && (t.b.mode.HalfOpen? || t.admitted != s.admitted ==> step.Call? && step.at > s.b.stateChangeTime + c.timeout)
            && (t.b.mode.Open? ==> t.b.stateChangeTime == s.b.stateChangeTime && t.admitted == s.admitted)
  {
    if step.Return? {
      OpenReturn(c, s.b, step.generation, step.success, step.duration, step.at);
    } else {
      assert CurrentState(c, s.b, step.at).mode.HalfOpen? <==> step.at > s.b.stateChangeTime + c.timeout;
    }
  }

  lemma OpenReturn(c: Config, b: Breaker, generation: nat, success: bool, duration: int, now: int)
    requires b.mode.Open?
    ensures var after := AfterRequest(c, b, generation, success, duration, now);
            after.mode.Open? && after.stateChangeTime == b.stateChangeTime
  {
  }

  /** Over whole runs without a reset: nothing is admitted up to the timeout after opening. */
  lemma {:induction false} OpenHolds(c: Config, states: seq<System>, steps: seq<Step>, i: nat, j: nat)
    requires Run(c, states, steps) && Initial(states[0]) && i <= j < |states|
    requires states[i].b.mode.Open?
    requires forall k :: i <= k < j ==> !steps[k].ResetCall? && steps[k].at <= states[i].b.stateChangeTime + c.timeout
    ensures states[j].b.mode.Open? && states[j].admitted == states[i].admitted
    ensures states[j].b.stateChangeTime == states[i].b.stateChangeTime
  {
    if i < j {
      OpenHolds(c, states, steps, i, j - 1);
      BreakerConservation(c, states, steps, j - 1);
      OpenRefuses(c, states[j - 1], steps[j - 1]);
    }
  }

  // ---------- HalfOpen ----------

  /** All probes spent and none of them outstanding. */
  predicate Spent(c: Config, s: System) {
    s.b.mode.HalfOpen? && s.b.counts.requests >= c.maxRequests && s.inFlight[s.b.generation] == 0
  }

  /** A spent half-open breaker never leaves that state again, short of a reset, and admits nothing. */
  lemma {:induction false} SpentIsAbsorbing(c: Config, states: seq<System>, steps: seq<Step>, i: nat, j: nat)
    requires Run(c, states, steps) && i <= j < |states|
    requires Spent(c, states[i])
    requires forall k :: i <= k < j ==> !steps[k].ResetCall?
    ensures Spent(c, states[j]) && states[j].admitted == states[i].admitted
    ensures states[j].b.counts == states[i].b.counts && states[j].b.generation == states[i].b.generation
  {
    if i < j {
      SpentIsAbsorbing(c, states, steps, i, j - 1);
      assert Enabled(states[j - 1], steps[j - 1]);
    }
  }

  /** One probe run to completion while nobody else calls. */
  function Probe(c: Config, b: Breaker, success: bool, duration: int, start: int, end: int): Breaker {
    var (b', ok) := BeforeRequest(c, b, start, 0);
    if ok then AfterRequest(c, b', b'.generation, success, duration, end) else b'
  }

  /** Probes one after the other; probe `k` starts and ends at its own times and takes its own duration. */
  function Probes(
      c: Config, b: Breaker, outcomes: seq<bool>, duration: nat -> int, start: nat -> int, end: nat -> int): Breaker
  {
    if outcomes == [] then b
    else
      var k := |outcomes| - 1;
      Probe(c, Probes(c, b, outcomes[..k], duration, start, end), outcomes[k], duration(k), start(k), end(k))
  }

  function CountOf(outcomes: seq<bool>, what: bool): nat {
    if outcomes == [] then 0
    else CountOf(outcomes[..|outcomes| - 1], what) + if outcomes[|outcomes| - 1] == what then 1 else 0
  }

  /** The successes at the end of the list. */
  function Streak(outcomes: seq<bool>): nat {
    if outcomes == [] || !outcomes[|outcomes| - 1] then 0 else Streak(outcomes[..|outcomes| - 1]) + 1
  }

  lemma {:induction false} StreakIsAll(outcomes: seq<bool>)
    ensures Streak(outcomes) <= |outcomes|
    ensures Streak(outcomes) == |outcomes| <==> forall i :: 0 <= i < |outcomes| ==> outcomes[i]
    ensures CountOf(outcomes, true) + CountOf(outcomes, false) == |outcomes|
  {
    if outcomes != [] {
      StreakIsAll(outcomes[..|outcomes| - 1]);
    }
  }

  /** A breaker that has just gone half-open, or is open and due to at the time of the first probe. */
  predicate ReadyToProbe(b: Breaker, first: int) {
    (b.mode.HalfOpen? && b.counts == NO_COUNTS) || (b.mode.Open? && Expired(b.expiry, first))
  }

  /** One of the first four probes of a half-open breaker. */
  lemma OneProbe(b: Breaker, success: bool, duration: int, start: int, end: int)
    requires ReadyToProbe(b, start) || b.mode.HalfOpen?
    requires b.mode.HalfOpen? ==> b.counts.consecutiveSuccesses <= b.counts.requests < 4
    ensures var e := Probe(DEFAULT_CONFIG, b, success, duration, start, end);
            var counts := if b.mode.Open? then NO_COUNTS else b.counts;
            && e.mode.HalfOpen? && e.generation == b.generation
            && e.counts.requests == counts.requests + 1
            && e.counts.totalFailures == counts.totalFailures + (if success then 0 else 1)
            && e.counts.consecutiveSuccesses == if success then counts.consecutiveSuccesses + 1 else 0
  {
  }

  lemma {:induction false} FewProbesKeepHalfOpen(
      b: Breaker, outcomes: seq<bool>, duration: nat -> int, start: nat -> int, end: nat -> int)
    requires ReadyToProbe(b, start(0)) && 0 < |outcomes| < 5
    ensures var e := Probes(DEFAULT_CONFIG, b, outcomes, duration, start, end);
            && e.mode.HalfOpen? && e.generation == b.generation
            && e.counts.requests == |outcomes|
            && e.counts.totalFailures == CountOf(outcomes, false)
            && e.counts.consecutiveSuccesses == Streak(outcomes)
  {
    hide Probe, DEFAULT_CONFIG;
    StreakIsAll(outcomes);
    var k := |outcomes| - 1;
    var before := Probes(DEFAULT_CONFIG, b, outcomes[..k], duration, start, end);
    if k == 0 {
      assert Probes(DEFAULT_CONFIG, b, outcomes[..0], duration, start, end) == b;
      assert CountOf(outcomes[..0], false) == 0 && Streak(outcomes[..0]) == 0;
    } else {
      FewProbesKeepHalfOpen(b, outcomes[..k], duration, start, end);
      StreakIsAll(outcomes[..k]);
    }
    OneProbe(before, outcomes[k], duration(k), start(k), end(k));
  }

  /**
   * With the default settings, five sequential probes close the breaker exactly if all succeed, open it
   * exactly if at least four fail and the fifth is a failure, and leave it half-open and spent otherwise.
   */
  lemma FiveProbes(b: Breaker, outcomes: seq<bool>, duration: nat -> int, start: nat -> int, end: nat -> int)
    requires ReadyToProbe(b, start(0)) && |outcomes| == 5
    ensures var e := Probes(DEFAULT_CONFIG, b, outcomes, duration, start, end);
            && (e.mode.Closed? <==> forall i :: 0 <= i < 5 ==> outcomes[i])
            && (e.mode.Open? <==> CountOf(outcomes, false) >= 4 && !outcomes[4])
            && (e.mode.HalfOpen? ==> e.counts.requests == DEFAULT_CONFIG.maxRequests)
  {
    var init := outcomes[..4];
    var e := Probes(DEFAULT_CONFIG, b, init, duration, start, end);
    FewProbesKeepHalfOpen(b, init, duration, start, end);
    StreakIsAll(init);
    StreakIsAll(outcomes);
    assert outcomes == init + [outcomes[4]];
    var counts := e.counts.(requests := 5, totalFailures := e.counts.totalFailures + 1);
    RateAboveThreeFifths(counts);
  }

  lemma RateAboveThreeFifths(c: Counts)
    requires c.requests == 5
    ensures FailureRate(c) > 0.6 <==> c.totalFailures >= 4
  {
    assert FailureRate(c) == c.totalFailures as real / 5.0;
  }

  // ---------- whose results close a half-open breaker ----------

  predicate Closes(c: Config, s: System, step: Step) {
    s.b.mode.HalfOpen? && Enabled(s, step) && step.Return? && Execute(c, s, step).b.mode.Closed?
  }

  /**
   * In every run, a return that closes a half-open breaker which carried no call over comes as the
   * last result of a full round of probes that have all succeeded.
   */
  lemma OnlyProbesClose(c: Config, states: seq<System>, steps: seq<Step>, i: nat)
    requires Run(c, states, steps) && Initial(states[0]) && i < |steps|
    requires Closes(c, states[i], steps[i]) && states[i].carried == 0
    ensures var s := states[i];
            && s.b.counts.requests == c.maxRequests && s.b.counts.totalFailures == 0
            && s.inFlight[s.b.generation] == 1 && steps[i].success && !steps[i].earlyCall
  {
    BreakerConservation(c, states, steps, i);
  }

  /** A run from a given state, without resets. */
  ghost predicate Continues(c: Config, s: System, states: seq<System>, steps: seq<Step>) {
    && Run(c, states, steps) && states[0] == s
    && forall k :: 0 <= k < |steps| ==> !steps[k].ResetCall?
  }

  /** A result of the generation, of a call that was not carried over. */
  predicate ProbeResult(step: Step, generation: nat) {
    step.Return? && step.generation == generation && !step.earlyCall
  }

  function ProbeResults(steps: seq<Step>, generation: nat): nat {
    if steps == [] then 0 else ProbeResults(steps[1..], generation) + if ProbeResult(steps[0], generation) then 1 else 0
  }

  /** Closed at the end, half-open until then. */
  ghost predicate ClosesAtEnd(states: seq<System>) {
    && states != [] && states[|states| - 1].b.mode.Closed?
    && forall k :: 0 <= k < |states| - 1 ==> states[k].b.mode.HalfOpen?
  }

  /** Half-open with nothing but successes so far, `missing` of which still lack to close it. */
  ghost predicate Missing(c: Config, s: System, missing: nat) {
    && Inv(c, s) && s.b.mode.HalfOpen? && s.b.counts.totalFailures == 0
    && s.b.counts.totalSuccesses == s.b.counts.consecutiveSuccesses
    && s.b.counts.consecutiveSuccesses + missing == c.maxRequests && missing > 0
  }

  /** The return of a call in flight succeeds, of a carried one if there is one left. */
  function NextSuccess(s: System): Step {
    Return(s.now, s.b.generation, true, 0, s.early > 0)
  }

  lemma SuccessStep(c: Config, s: System, missing: nat)
    requires Missing(c, s, missing) && s.inFlight[s.b.generation] > 0
    ensures Enabled(s, NextSuccess(s))
    ensures var t := Execute(c, s, NextSuccess(s));
            && (missing == 1 ==> t.b.mode.Closed?)
            && (missing > 1 ==> Missing(c, t, missing - 1) && t.carried == s.carried && t.b.generation == s.b.generation)
  {
    ReturnKeepsInv(c, s, NextSuccess(s));
  }

  /** With a carried call ahead of it, a half-open breaker with none in flight still admits a probe. */
  lemma ProbeStep(c: Config, s: System, missing: nat)
    requires Missing(c, s, missing) && s.inFlight[s.b.generation] == 0 && s.carried > 0
    ensures var call := Call(s.now, 0);
            && Enabled(s, call)
            && var t := Execute(c, s, call);
               && Missing(c, t, missing) && t.b.generation == s.b.generation && t.inFlight[t.b.generation] > 0
               && t.carried == s.carried && t.early == s.early
  {
    CallKeepsInv(c, s, Call(s.now, 0));
  }

  lemma {:induction false} SuccessesClose(c: Config, s: System, missing: nat) returns (states: seq<System>, steps: seq<Step>)
    requires Missing(c, s, missing) && s.carried > 0
    ensures Continues(c, s, states, steps) && ClosesAtEnd(states)
    ensures ProbeResults(steps, s.b.generation) <= if s.early > 0 then missing - 1 else missing
    decreases missing, if s.inFlight[s.b.generation] == 0 then 1 else 0
  {
    hide Inv, Execute, ClosesAtEnd, Continues, Enabled;
    if s.inFlight[s.b.generation] == 0 {
      ProbeStep(c, s, missing);
      NoneEarly(c, s);
      states, steps := SuccessesClose(c, Execute(c, s, Call(s.now, 0)), missing);
      Prepend(c, s, Call(s.now, 0), states, steps);
      states, steps := [s] + states, [Call(s.now, 0)] + steps;
    } else {
      var step := NextSuccess(s);
      SuccessStep(c, s, missing);
      var t := Execute(c, s, step);
      if missing == 1 {
        states, steps := [t], [];
        AtOnce(c, t);
      } else {
        states, steps := SuccessesClose(c, t, missing - 1);
      }
      Prepend(c, s, step, states, steps);
      states, steps := [s] + states, [step] + steps;
    }
  }

  lemma NoneEarly(c: Config, s: System)
    requires Inv(c, s) && s.inFlight[s.b.generation] == 0
    ensures s.early == 0
  {
  }

  lemma AtOnce(c: Config, t: System)
    requires t.b.mode.Closed?
    ensures Continues(c, t, [t], []) && ClosesAtEnd([t])
  {
  }

  lemma Prepend(c: Config, s: System, step: Step, states: seq<System>, steps: seq<Step>)
    requires s.b.mode.HalfOpen? && Enabled(s, step) && !step.ResetCall?
    requires Continues(c, Execute(c, s, step), states, steps) && ClosesAtEnd(states)
    ensures Continues(c, s, [s] + states, [step] + steps) && ClosesAtEnd([s] + states)
    ensures ProbeResults([step] + steps, s.b.generation) ==
            ProbeResults(steps, s.b.generation) + if ProbeResult(step, s.b.generation) then 1 else 0
  {
    assert ([step] + steps)[1..] == steps;
  }

  /** Without a carried call left, closing takes a full round of probe results. */
  lemma {:induction false} FullRound(c: Config, s: System, states: seq<System>, steps: seq<Step>)
    requires Inv(c, s) && s.b.mode.HalfOpen? && s.early == 0 && Continues(c, s, states, steps) && ClosesAtEnd(states)
    ensures ProbeResults(steps, s.b.generation) + s.b.counts.totalSuccesses + s.b.counts.totalFailures >= c.maxRequests
    decreases |steps|
  {
    hide Inv, Execute, Enabled;
    var step := steps[0];
    assert Enabled(s, step) && states[1] == Execute(c, s, step);
    StepKeepsInv(c, s, step);
    HalfOpenStep(c, s, step);
    if states[1].b.mode.HalfOpen? {
      assert Continues(c, states[1], states[1..], steps[1..]) && ClosesAtEnd(states[1..]);
      FullRound(c, states[1], states[1..], steps[1..]);
    } else {
      assert |states| == 2 && steps[1..] == [];
    }
  }

  /** One step while half-open without a carried call left. */
  lemma HalfOpenStep(c: Config, s: System, step: Step)
    requires Inv(c, s) && s.b.mode.HalfOpen? && s.early == 0 && Enabled(s, step) && !step.ResetCall?
    ensures var t := Execute(c, s, step);
            var results := s.b.counts.totalSuccesses + s.b.counts.totalFailures
                           + if ProbeResult(step, s.b.generation) then 1 else 0;
            && (t.b.mode.HalfOpen? ==>
                  && t.b.generation == s.b.generation && t.early == 0
                  && t.b.counts.totalSuccesses + t.b.counts.totalFailures == results)
            && (t.b.mode.Closed? ==> results >= c.maxRequests)
  {
  }

  /** The step takes an open breaker to half-open. */
  predicate Entered(s: System, t: System) {
    s.b.mode.Open? && t.b.mode.HalfOpen?
  }

  lemma EntryCounts(c: Config, before: System, step: Step)
    requires Enabled(before, step) && !step.ResetCall? && Entered(before, Execute(c, before, step))
    ensures var t := Execute(c, before, step);
            && t.b.counts.totalSuccesses == t.b.counts.totalFailures == t.b.counts.consecutiveSuccesses == 0
            && t.early == t.carried
  {
  }

  lemma EntryState(c: Config, before: System, step: Step)
    requires Inv(c, before) && Enabled(before, step) && !step.ResetCall? && Entered(before, Execute(c, before, step))
    requires c.maxRequests >= 1
    ensures var t := Execute(c, before, step); Missing(c, t, c.maxRequests) && t.early == t.carried
  {
    hide Execute, Enabled;
    StepKeepsInv(c, before, step);
    EntryCounts(c, before, step);
  }

  /**
   * Results, not probes, close a half-open breaker: from entering that state some continuation without a
   * reset closes it on fewer than `maxRequests` results of probes if and only if calls were carried over.
   */
  lemma ClosesEarlyIffCarried(c: Config, before: System, step: Step)
    requires Inv(c, before) && Enabled(before, step) && !step.ResetCall? && Entered(before, Execute(c, before, step))
    requires c.maxRequests >= 1
    ensures var s := Execute(c, before, step);
            (exists states, steps :: Continues(c, s, states, steps) && ClosesAtEnd(states)
                                     && ProbeResults(steps, s.b.generation) < c.maxRequests)
            <==> s.carried > 0
  {
    hide Inv, Execute, ClosesAtEnd, Continues, Enabled;
    var s := Execute(c, before, step);
    EntryState(c, before, step);
    if s.carried > 0 {
      var states, steps := SuccessesClose(c, s, c.maxRequests);
    } else {
      NothingYet(c, s);
      forall states, steps | Continues(c, s, states, steps) && ClosesAtEnd(states)
        ensures ProbeResults(steps, s.b.generation) >= c.maxRequests
      {
        FullRound(c, s, states, steps);
      }
    }
  }

  lemma NothingYet(c: Config, s: System)
    requires Missing(c, s, c.maxRequests)
    ensures s.b.counts.totalSuccesses == 0 && s.b.counts.totalFailures == 0
  {
  }

  /** Such an entry happens: a call admitted long before the breaker opened outlives its opening. */
  lemma LateResultClosesBreaker(t: int)
    ensures var c := Config(1, 0, 10, 0, 0, (n: Counts) => n.consecutiveFailures >= 1);
            var s0 := System(Breaker(Closed, 0, NO_COUNTS, None, t, 0, 0), t, multiset{}, 0, 0, 0);
            var s2 := Execute(c, Execute(c, s0, Call(t, 0)), Call(t, 0));
            && Initial(s0)
            && Enabled(s2, Return(t, 0, false, 0, false))
            && var s3 := Execute(c, s2, Return(t, 0, false, 0, false));
            && s3.b.mode.Open?
            && var s4 := Execute(c, s3, Call(t + 11, 0));
            && s4.b.mode.HalfOpen? && s4.b.counts.requests == 1 && s4.inFlight[0] == 2 && s4.carried == 1
            && Enabled(s4, Return(t + 11, 0, true, 0, true))
            && var s5 := Execute(c, s4, Return(t + 11, 0, true, 0, true));
            && s5.b.mode.Closed? && s5.inFlight[0] == 1
  {
  }
}
