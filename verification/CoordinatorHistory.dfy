/** What the event coordinator did with every event, read off the steps of a run. */
module CoordinatorHistory {
  import opened Common
  import opened EventBuffer
  import opened EventCoordinator

  /** How many of the first `i` steps received an event from the input queue. */
  function Takes(steps: seq<Step>, i: nat): nat
    requires i <= |steps|
  {
    if i == 0 then 0 else Takes(steps, i - 1) + if steps[i - 1].Take? then 1 else 0
  }

  /** How many of the first `i` steps consumed an event from the output queue. */
  function Consumptions(steps: seq<Step>, i: nat): nat
    requires i <= |steps|
  {
    if i == 0 then 0 else Consumptions(steps, i - 1) + if steps[i - 1].Consume? then 1 else 0
  }

  /**
   * The events among the first `i` submissions that found room: fewer than the input queue's size had been
   * accepted and not received yet.
   */
  function Accepted(c: Config, steps: seq<Step>, i: nat): seq<ChangeEvent>
    requires i <= |steps|
  {
    if i == 0 then []
    else
      var before := Accepted(c, steps, i - 1);
      if steps[i - 1].Submit? && |before| < Takes(steps, i - 1) + c.inputQueueSize then before + [steps[i - 1].event] else before
  }

  /** How many of the first `i` steps were submissions. */
  function Submissions(steps: seq<Step>, i: nat): nat
    requires i <= |steps|
  {
    if i == 0 then 0 else Submissions(steps, i - 1) + if steps[i - 1].Submit? then 1 else 0
  }

  /** How many of the first `i` steps handed an event out. */
  function HandOuts(steps: seq<Step>, i: nat): nat
    requires i <= |steps|
  {
    if i == 0 then 0 else HandOuts(steps, i - 1) + if steps[i - 1].DistributeNext? then 1 else 0
  }

  /** How many of them put it on the output queue: those that found fewer unconsumed events than its size. */
  function Outputs(c: Config, steps: seq<Step>, i: nat): nat
    requires i <= |steps|
  {
    if i == 0 then 0
    else
      var before := Outputs(c, steps, i - 1);
      before + if steps[i - 1].DistributeNext? && before < Consumptions(steps, i - 1) + c.outputQueueSize then 1 else 0
  }

  /** The queues and the counters, in terms of the steps. */
  ghost predicate Explained(c: Config, s: Coordinator, steps: seq<Step>, i: nat)
    requires i <= |steps|
  {
    var accepted, taken, consumed := Accepted(c, steps, i), Takes(steps, i), Consumptions(steps, i);
    && taken <= |accepted| && s.inputQueue == accepted[taken..]
    && consumed <= |s.published| && s.outputQueue == s.published[consumed..]
    && |s.published| == Outputs(c, steps, i) && s.lost == HandOuts(steps, i) - Outputs(c, steps, i)
    && s.stats.totalReceived == |accepted|
    && s.stats.totalDropped == Submissions(steps, i) - |accepted| + s.lost
    && s.stats.totalProcessed == Outputs(c, steps, i)
    && s.stats.totalDuplicates == taken - |s.unique|
  }

  lemma StepExplained(c: Config, s: Coordinator, steps: seq<Step>, i: nat)
    requires 0 < i <= |steps| && Explained(c, s, steps, i - 1) && Enabled(s, steps[i - 1])
    ensures Explained(c, Execute(c, s, steps[i - 1]), steps, i)
  {
    hide Duplicate, InTurn, Perform;
    match steps[i - 1]
    case Submit(_) => SubmitExplained(c, s, steps, i);
    case Take(_, _) => TakeExplained(c, s, steps, i);
    case DistributeNext => HandOutExplained(c, s, steps, i);
    case _ =>
  }

  lemma SubmitExplained(c: Config, s: Coordinator, steps: seq<Step>, i: nat)
    requires 0 < i <= |steps| && Explained(c, s, steps, i - 1) && steps[i - 1].Submit?
    ensures Explained(c, Submitted(c, s, steps[i - 1].event), steps, i)
  {
  }

  lemma TakeExplained(c: Config, s: Coordinator, steps: seq<Step>, i: nat)
    requires 0 < i <= |steps| && Explained(c, s, steps, i - 1) && steps[i - 1].Take? && s.inputQueue != []
    ensures Explained(c, Taken(c, s, steps[i - 1].now, steps[i - 1].later), steps, i)
  {
    hide Duplicate;
  }

  lemma HandOutExplained(c: Config, s: Coordinator, steps: seq<Step>, i: nat)
    requires 0 < i <= |steps| && Explained(c, s, steps, i - 1) && steps[i - 1].DistributeNext? && s.handingOut != []
    ensures Explained(c, Distributed(c, s), steps, i)
  {
    hide InTurn;
  }

  /**
   * Queues and counters follow the steps in every run: an event is refused exactly if the input queue is full,
   * lost exactly if it is handed out while the output queue is full, both queues are served in order, and each
   * statistic counts exactly what it is named after.
   */
  lemma {:induction false} StepsExplainAll(c: Config, states: seq<Coordinator>, steps: seq<Step>, i: nat)
    requires Run(c, states, steps) && i < |states|
    ensures Explained(c, states[i], steps, i)
  {
    if i > 0 {
      hide Explained, Execute, Enabled;
      StepsExplainAll(c, states, steps, i - 1);
      StepExplained(c, states[i - 1], steps, i);
    } else {
      hide Accepted;
      Nothing(c, steps);
    }
  }

  lemma Nothing(c: Config, steps: seq<Step>)
    ensures Explained(c, INITIAL, steps, 0)
  {
  }

  // ---------- batches ----------

  /** The batch stays below its size; a batch just handed out by an event is full. */
  predicate BatchFits(c: Config, s: Coordinator) {
    c.batchSize > 0 ==> |s.batch| < c.batchSize && |s.handingOut| <= c.batchSize
  }

  /** No batch exceeds its size in any run. */
  lemma {:induction false} BatchesFit(c: Config, states: seq<Coordinator>, steps: seq<Step>, i: nat)
    requires Run(c, states, steps) && i < |states|
    ensures BatchFits(c, states[i])
  {
    if i > 0 {
      hide Duplicate, Perform, InTurn;
      BatchesFit(c, states, steps, i - 1);
    }
  }

  /**
   * When a batch is handed out: by the event that makes it full, with exactly that many events, or by the
   * ticker, with whatever there is, and never otherwise.
   */
  lemma HandsOutFullBatches(c: Config, states: seq<Coordinator>, steps: seq<Step>, i: nat)
    requires Run(c, states, steps) && i < |steps| && states[i].handingOut == [] && c.batchSize > 0
    ensures var s, t := states[i], states[i + 1];
            && (t.handingOut != [] <==>
                  || (steps[i].Take? && |t.unique| > |s.unique| && |s.batch| + 1 == c.batchSize)
                  || steps[i].BatchTimeout?)
            && (t.handingOut != [] ==> t.batch == [] && t.handingOut == s.batch + t.unique[|s.unique|..])
            && (t.handingOut != [] && steps[i].Take? ==> |t.handingOut| == c.batchSize)
  {
    hide Duplicate, Perform, InTurn;
    BatchesFit(c, states, steps, i);
    assert Enabled(states[i], steps[i]) && states[i + 1] == Execute(c, states[i], steps[i]);
  }

  // ---------- deduplication ----------

  /**
   * Deduplication over runs: the events that pass are exactly those that the specification accepts, for which
   * an event passes unless one with its ID passed less than the lifetime before.
   */
  lemma PassesWhatIsNotRecent(c: Config, states: seq<Coordinator>, steps: seq<Step>, i: nat)
    requires Run(c, states, steps) && i < |states| && c.enableDedup
    requires ClockOrdered(DedupOperations(c, states, steps, i))
    ensures states[i].unique == Events(History(DedupOperations(c, states, steps, i), c.ttl))
  {
    SeenFollowsOperations(c, states, steps, i);
    AcceptsWhatIsNotRecent(DedupOperations(c, states, steps, i), c.ttl);
  }

  /** Without deduplication every event received passes. */
  lemma {:induction false} WithoutDedupAllPass(c: Config, states: seq<Coordinator>, steps: seq<Step>, i: nat)
    requires Run(c, states, steps) && i < |states| && !c.enableDedup
    ensures Takes(steps, i) <= |Accepted(c, steps, i)|
    ensures states[i].unique == Accepted(c, steps, i)[..Takes(steps, i)]
  {
    hide Duplicate, Perform, InTurn;
    StepsExplainAll(c, states, steps, i);
    if i > 0 {
      StepsExplainAll(c, states, steps, i - 1);
      WithoutDedupAllPass(c, states, steps, i - 1);
    }
  }
}
