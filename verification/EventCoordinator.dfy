/**
 * The event coordinator before shutdown: submitters, the input loop with its batch and the output
 * consumer interleave; the input loop is between events or in the middle of handing out a batch.
 */
module EventCoordinator {
  import opened Common
  import opened EventBuffer

  datatype Config = Config(inputQueueSize: nat, outputQueueSize: nat, batchSize: nat, enableDedup: bool, ttl: int,
                           processors: nat)

  /** One event given to one processor. */
  datatype Given = Given(processor: nat, event: ChangeEvent)

  datatype Stats = Stats(totalReceived: nat, totalProcessed: nat, totalDuplicates: nat, totalDropped: nat)

  /**
   * `handingOut` is the rest of the batch the input loop is processing.  `submissions`, `unique` and
   * `published` record what was ever submitted, what passed deduplication and what was ever put on
   * the output queue; `lost` counts the events the output queue had no room for.  `given` lists the
   * events given to processors, and `roundRobin` is the counter that picks them.
   */
  datatype Coordinator = Coordinator(
    inputQueue: seq<ChangeEvent>, batch: seq<ChangeEvent>, handingOut: seq<ChangeEvent>, outputQueue: seq<ChangeEvent>,
    seen: map<string, int>, stats: Stats,
    submissions: seq<ChangeEvent>, unique: seq<ChangeEvent>, published: seq<ChangeEvent>, lost: nat,
    roundRobin: nat, given: seq<Given>)

  datatype Step =
    | Submit(event: ChangeEvent)
    | Take(now: int, later: int)
    | BatchTimeout
    | DistributeNext
    | Consume
    | CleanSeen(now: int)

  function Submitted(c: Config, s: Coordinator, event: ChangeEvent): Coordinator {
    var s' := s.(submissions := s.submissions + [event]);
    if |s.inputQueue| < c.inputQueueSize then
      s'.(inputQueue := s.inputQueue + [event], stats := s.stats.(totalReceived := s.stats.totalReceived + 1))
    else
      s'.(stats := s.stats.(totalDropped := s.stats.totalDropped + 1))
  }

  function Taken(c: Config, s: Coordinator, now: int, later: int): Coordinator
    requires s.inputQueue != []
  {
    var event := s.inputQueue[0];
    var s' := s.(inputQueue := s.inputQueue[1..]);
    if c.enableDedup && Duplicate(s.seen, event.id, now, c.ttl) then
      s'.(stats := s.stats.(totalDuplicates := s.stats.totalDuplicates + 1))
    else
      var batch := s.batch + [event];
      var full := |batch| >= c.batchSize;
      s'.(seen := if c.enableDedup then s.seen[event.id := later] else s.seen,
          unique := s.unique + [event],
          batch := if full then [] else batch,
          handingOut := if full then batch else s.handingOut)
  }

  function InTurn(counter: nat, processors: nat): nat
    requires processors > 0
  {
    counter % processors
  }

  function Distributed(c: Config, s: Coordinator): Coordinator
    requires s.handingOut != []
  {
    var event := s.handingOut[0];
    var s' := s.(
      handingOut := s.handingOut[1..],
      roundRobin := s.roundRobin + if c.processors > 0 then 1 else 0,
      given := s.given + if c.processors > 0 then [Given(InTurn(s.roundRobin, c.processors), event)] else []);
    if |s.outputQueue| < c.outputQueueSize then
      s'.(outputQueue := s.outputQueue + [event], published := s.published + [event],
          stats := s.stats.(totalProcessed := s.stats.totalProcessed + 1))
    else
      s'.(stats := s.stats.(totalDropped := s.stats.totalDropped + 1), lost := s.lost + 1)
  }

  predicate Enabled(s: Coordinator, step: Step) {
    match step
    case Submit(_) => true
    case Take(_, _) => s.handingOut == [] && s.inputQueue != []
    case BatchTimeout => s.handingOut == [] && s.batch != []
    case DistributeNext => s.handingOut != []
    case Consume => s.outputQueue != []
    case CleanSeen(_) => true
  }

  function Execute(c: Config, s: Coordinator, step: Step): Coordinator
    requires Enabled(s, step)
  {
    match step
    case Submit(event) => Submitted(c, s, event)
    case Take(now, later) => Taken(c, s, now, later)
    case BatchTimeout => s.(handingOut := s.batch, batch := [])
    case DistributeNext => Distributed(c, s)
    case Consume => s.(outputQueue := s.outputQueue[1..])
    case CleanSeen(now) => s.(seen := Perform(s.seen, Cleanup(now), c.ttl))
  }

  const INITIAL := Coordinator([], [], [], [], map[], Stats(0, 0, 0, 0), [], [], [], 0, 0, [])

  // ---------- the coordinator object ----------

  class EventCoordinator {
    const config: Config
    var inputQueue: seq<ChangeEvent>
    var outputQueue: seq<ChangeEvent>
    var batch: seq<ChangeEvent>
    var handingOut: seq<ChangeEvent>
    var seenEvents: map<string, int>
    var stats: Stats
    ghost var submissions: seq<ChangeEvent>
    ghost var unique: seq<ChangeEvent>
    ghost var published: seq<ChangeEvent>
    ghost var lost: nat
    var roundRobin: nat
    ghost var given: seq<Given>

    ghost function Abs(): Coordinator
      reads this
    {
      Coordinator(inputQueue, batch, handingOut, outputQueue, seenEvents, stats, submissions, unique, published, lost,
                  roundRobin, given)
    }

    constructor (inputQueueSize: int, outputQueueSize: int, batchSize: int, enableDedup: bool, ttl: int, processors: nat)
      ensures Abs() == INITIAL && config.processors == processors
      ensures config.inputQueueSize > 0 && config.outputQueueSize > 0 && config.batchSize > 0
    {
      config := Config(if inputQueueSize <= 0 then 10000 else inputQueueSize,
                       if outputQueueSize <= 0 then 10000 else outputQueueSize,
                       if batchSize <= 0 then 100 else batchSize,
                       enableDedup,
                       if ttl <= 0 then 300_000_000_000 else ttl,
                       processors);
      inputQueue, outputQueue, batch, handingOut, seenEvents := [], [], [], [], map[];
      stats := Stats(0, 0, 0, 0);
      submissions, unique, published, lost, roundRobin, given := [], [], [], 0, 0, [];
    }

    method SubmitEvent(event: ChangeEvent) returns (accepted: bool)
      modifies this
      ensures Abs() == Execute(config, old(Abs()), Submit(event))
      ensures accepted <==> |old(inputQueue)| < config.inputQueueSize
    {
      submissions := submissions + [event];
      accepted := |inputQueue| < config.inputQueueSize;
      if accepted {
        inputQueue := inputQueue + [event];
        stats := stats.(totalReceived := stats.totalReceived + 1);
      } else {
        stats := stats.(totalDropped := stats.totalDropped + 1);
      }
    }

    /** The input loop receives one event. */
    method TakeInput(now: int, later: int)
      requires handingOut == [] && inputQueue != []
      modifies this
      ensures Abs() == Execute(config, old(Abs()), Take(now, later))
    {
      var event := inputQueue[0];
      inputQueue := inputQueue[1..];
      if config.enableDedup {
        if event.id in seenEvents && now - seenEvents[event.id] < config.ttl {
          stats := stats.(totalDuplicates := stats.totalDuplicates + 1);
          return;
        }
        seenEvents := seenEvents[event.id := later];
      }
      unique := unique + [event];
      batch := batch + [event];
      if |batch| >= config.batchSize {
        handingOut, batch := batch, [];
      }
    }

    /** The batch ticker fires on a non-empty batch. */
    method OnBatchTimeout()
      requires handingOut == [] && batch != []
      modifies this
      ensures Abs() == Execute(config, old(Abs()), BatchTimeout)
    {
      handingOut, batch := batch, [];
    }

    /**
     * The next round of the loop over the batch: start the processor in turn, and put the event on the
     * output queue or drop it.  The processor is the one started on the event, if any.
     */
    method DistributeEvent() returns (processor: Option<nat>)
      requires handingOut != []
      modifies this
      ensures Abs() == Execute(config, old(Abs()), DistributeNext)
      ensures given == old(given) + if processor.Some? then [Given(processor.value, old(handingOut)[0])] else []
    {
      hide InTurn;
      var event := handingOut[0];
      handingOut := handingOut[1..];
      processor := None;
      assert given + [] == given;
      if config.processors > 0 {
        processor := Some(InTurn(roundRobin, config.processors));
        roundRobin := roundRobin + 1;
        given := given + [Given(processor.value, event)];
      }
      if |outputQueue| < config.outputQueueSize {
        outputQueue := outputQueue + [event];
        published := published + [event];
        stats := stats.(totalProcessed := stats.totalProcessed + 1);
      } else {
        stats := stats.(totalDropped := stats.totalDropped + 1);
        lost := lost + 1;
      }
    }
  }

  // ---------- conservation and order ----------

  ghost predicate Run(c: Config, states: seq<Coordinator>, steps: seq<Step>) {
    && |states| == |steps| + 1 && states[0] == INITIAL
    && forall i :: 0 <= i < |steps| ==> Enabled(states[i], steps[i]) && states[i + 1] == Execute(c, states[i], steps[i])
  }

  /** Every submission is processed, dropped, a duplicate, queued or batched. */
  predicate Conserved(s: Coordinator) {
    |s.submissions| == s.stats.totalProcessed + s.stats.totalDropped + s.stats.totalDuplicates
                       + |s.inputQueue| + |s.batch| + |s.handingOut|
  }

  /** What was published, followed by what is still to be handed out, in order. */
  function Outgoing(s: Coordinator): seq<ChangeEvent> {
    s.published + s.handingOut + s.batch
  }

  ghost predicate Inv(c: Config, s: Coordinator) {
    && Conserved(s)
    && s.stats.totalProcessed == |s.published|
    && s.stats.totalReceived == |s.unique| + s.stats.totalDuplicates + |s.inputQueue|
    && |s.unique| == |Outgoing(s)| + s.lost
    && Subsequence(Outgoing(s), s.unique)
    && Subsequence(s.unique + s.inputQueue, s.submissions)
    && |s.inputQueue| <= c.inputQueueSize && |s.outputQueue| <= c.outputQueueSize
  }

  lemma DroppedStaysSubsequence<T>(a: seq<T>, x: T, b: seq<T>, whole: seq<T>)
    requires Subsequence(a + [x] + b, whole)
    ensures Subsequence(a + b, whole)
  {
    SubsequenceSelf(a);
    SubsequenceSelf(b);
    NothingIsSubsequence([x]);
    SubsequenceAppend(a, a, [], [x]);
    assert a + [] == a;
    SubsequenceAppend(a, a + [x], b, b);
    SubsequenceTransitive(a + b, a + [x] + b, whole);
  }

  lemma ExtendedSubsequence<T>(part: seq<T>, whole: seq<T>, x: T)
    requires Subsequence(part, whole)
    ensures Subsequence(part + [x], whole + [x]) && Subsequence(part, whole + [x])
  {
    SubsequenceSelf([x]);
    NothingIsSubsequence([x]);
    SubsequenceAppend(part, whole, [x], [x]);
    SubsequenceAppend(part, whole, [], [x]);
    assert part + [] == part;
  }

  lemma TakeKeepsInv(c: Config, s: Coordinator, now: int, later: int)
    requires Inv(c, s) && s.handingOut == [] && s.inputQueue != []
    ensures Inv(c, Taken(c, s, now, later))
  {
    hide Subsequence, Duplicate;
    var event, t := s.inputQueue[0], Taken(c, s, now, later);
    assert s.unique + s.inputQueue == s.unique + [event] + t.inputQueue;
    if t.unique == s.unique {
      DroppedStaysSubsequence(s.unique, event, t.inputQueue, s.submissions);
      assert Outgoing(t) == Outgoing(s);
    } else {
      ExtendedSubsequence(Outgoing(s), s.unique, event);
      assert Outgoing(t) == Outgoing(s) + [event];
    }
  }

  lemma DistributeKeepsInv(c: Config, s: Coordinator)
    requires Inv(c, s) && s.handingOut != []
    ensures Inv(c, Distributed(c, s))
  {
    hide InTurn, Subsequence;
    var event, t := s.handingOut[0], Distributed(c, s);
    if t.lost == s.lost {
      assert Outgoing(t) == Outgoing(s);
    } else {
      assert Outgoing(s) == s.published + [event] + (t.handingOut + t.batch);
      DroppedStaysSubsequence(s.published, event, t.handingOut + t.batch, s.unique);
      assert Outgoing(t) == s.published + (t.handingOut + t.batch);
    }
  }

  lemma SubmitKeepsInv(c: Config, s: Coordinator, event: ChangeEvent)
    requires Inv(c, s)
    ensures Inv(c, Submitted(c, s, event))
  {
    var t := Submitted(c, s, event);
    ExtendedSubsequence(s.unique + s.inputQueue, s.submissions, event);
    assert t.inputQueue != s.inputQueue ==> t.unique + t.inputQueue == s.unique + s.inputQueue + [event];
    assert Outgoing(t) == Outgoing(s);
  }

  lemma StepKeepsInv(c: Config, s: Coordinator, step: Step)
    requires Inv(c, s) && Enabled(s, step)
    ensures Inv(c, Execute(c, s, step))
  {
    match step
    case Submit(event) => SubmitKeepsInv(c, s, event);
    case Take(now, later) => TakeKeepsInv(c, s, now, later);
    case DistributeNext => DistributeKeepsInv(c, s);
    case _ => assert Outgoing(Execute(c, s, step)) == Outgoing(s);
  }

  /** Conservation and order hold in every state of every run. */
  lemma {:induction false} CoordinatorConservation(c: Config, states: seq<Coordinator>, steps: seq<Step>, i: nat)
    requires Run(c, states, steps) && i < |states|
    ensures Conserved(states[i]) && Inv(c, states[i])
  {
    if i > 0 {
      CoordinatorConservation(c, states, steps, i - 1);
      StepKeepsInv(c, states[i - 1], steps[i - 1]);
    }
  }

  /**
   * What was put on the output queue is an in-order subsequence of the deduplicated submissions; once
   * the loop is drained it equals them exactly if the output queue never overflowed.
   */
  lemma PublishedInOrder(c: Config, states: seq<Coordinator>, steps: seq<Step>, i: nat)
    requires Run(c, states, steps) && i < |states|
    ensures var s := states[i];
            && Subsequence(s.published, s.unique)
            && (s.handingOut == [] && s.batch == [] ==> (s.published == s.unique <==> s.lost == 0))
  {
    CoordinatorConservation(c, states, steps, i);
    var s := states[i];
    NothingIsSubsequence(s.handingOut + s.batch);
    SubsequenceSelf(s.published);
    SubsequenceAppend(s.published, s.published, [], s.handingOut + s.batch);
    assert s.published + [] == s.published;
    assert Outgoing(s) == s.published + (s.handingOut + s.batch);
    SubsequenceTransitive(s.published, Outgoing(s), s.unique);
    SubsequenceLength(s.published, s.unique);
  }

  // ---------- deduplication over whole runs ----------

  /** What the first `i` steps do to the map of seen events. */
  function DedupOperations(c: Config, states: seq<Coordinator>, steps: seq<Step>, i: nat): seq<Operation>
    requires i <= |steps| < |states|
    requires forall k :: 0 <= k < |steps| ==> Enabled(states[k], steps[k])
  {
    if i == 0 then []
    else
      DedupOperations(c, states, steps, i - 1) + OperationOf(states[i - 1], steps[i - 1])
  }

  /** What one step does to the map of seen events. */
  function OperationOf(s: Coordinator, step: Step): seq<Operation>
    requires Enabled(s, step)
  {
    match step
    case Take(now, later) => [Add(s.inputQueue[0], now, later)]
    case CleanSeen(now) => [Cleanup(now)]
    case _ => []
  }

  lemma SeenFollowsStep(c: Config, s: Coordinator, step: Step, before: seq<Operation>)
    requires Enabled(s, step) && c.enableDedup
    requires s.seen == SeenAfter(before, c.ttl) && s.unique == AcceptedEvents(before, c.ttl)
    ensures var t, ops := Execute(c, s, step), before + OperationOf(s, step);
            t.seen == SeenAfter(ops, c.ttl) && t.unique == AcceptedEvents(ops, c.ttl)
  {
    var op := OperationOf(s, step);
    if op == [] {
      assert before + op == before;
    } else {
      assert (before + op)[..|before|] == before;
    }
  }

  lemma {:induction false} SeenFollowsOperations(c: Config, states: seq<Coordinator>, steps: seq<Step>, i: nat)
    requires Run(c, states, steps) && i < |states| && c.enableDedup
    ensures states[i].seen == SeenAfter(DedupOperations(c, states, steps, i), c.ttl)
    ensures states[i].unique == AcceptedEvents(DedupOperations(c, states, steps, i), c.ttl)
  {
    if i > 0 {
      hide Execute, Enabled;
      SeenFollowsOperations(c, states, steps, i - 1);
      var before := DedupOperations(c, states, steps, i - 1);
      SeenFollowsStep(c, states[i - 1], steps[i - 1], before);
      assert states[i] == Execute(c, states[i - 1], steps[i - 1]);
      assert DedupOperations(c, states, steps, i) == before + OperationOf(states[i - 1], steps[i - 1]);
    }
  }

  /**
   * What passes deduplication in a run is exactly what a map of seen events that is never cleaned
   * would let pass: the cleanups between the events are invisible.
   */
  lemma DeduplicationIgnoresCleanups(c: Config, states: seq<Coordinator>, steps: seq<Step>, i: nat)
    requires Run(c, states, steps) && i < |states| && c.enableDedup
    requires ClockOrdered(DedupOperations(c, states, steps, i))
    ensures states[i].unique == AcceptedEvents(WithoutCleanups(DedupOperations(c, states, steps, i)), c.ttl)
  {
    SeenFollowsOperations(c, states, steps, i);
    CleanupIsInvisible(DedupOperations(c, states, steps, i), c.ttl);
  }

  // ---------- round robin over the processors ----------

  function EventsOf(given: seq<Given>): seq<ChangeEvent> {
    if given == [] then [] else EventsOf(given[..|given| - 1]) + [given[|given| - 1].event]
  }

  lemma GivenAppend(given: seq<Given>, g: Given)
    ensures EventsOf(given + [g]) == EventsOf(given) + [g.event]
  {
    assert (given + [g])[..|given|] == given;
  }

  /** What was given to processors, followed by what is still to be handed out. */
  function Assigned(s: Coordinator): seq<ChangeEvent> {
    EventsOf(s.given) + s.handingOut + s.batch
  }

  lemma TurnsStep(c: Config, s: Coordinator, step: Step)
    requires Enabled(s, step) && c.processors > 0 && Assigned(s) == s.unique && |s.given| == s.roundRobin
    ensures var t := Execute(c, s, step); Assigned(t) == t.unique && |t.given| == t.roundRobin
  {
    hide InTurn, EventsOf;
    var t := Execute(c, s, step);
    match step
    case Take(_, _) =>
      if t.unique != s.unique {
        assert Assigned(t) == Assigned(s) + [s.inputQueue[0]];
      } else {
        assert Assigned(t) == Assigned(s);
      }
    case DistributeNext =>
      GivenAppend(s.given, Given(InTurn(s.roundRobin, c.processors), s.handingOut[0]));
      assert Assigned(t) == Assigned(s);
    case _ => assert Assigned(t) == Assigned(s);
  }

  /**
   * With processors, every event that passes deduplication is given to exactly one of them, in order and
   * whether or not the output queue has room, and the k-th event goes to processor k modulo their number.
   */
  lemma {:induction false} GivenInOrderAndTurn(c: Config, states: seq<Coordinator>, steps: seq<Step>, i: nat)
    requires Run(c, states, steps) && i < |states| && c.processors > 0
    ensures Assigned(states[i]) == states[i].unique && |states[i].given| == states[i].roundRobin
    ensures forall k :: 0 <= k < |states[i].given| ==> states[i].given[k].processor == k % c.processors
  {
    if i > 0 {
      GivenInOrderAndTurn(c, states, steps, i - 1);
      TurnsStep(c, states[i - 1], steps[i - 1]);
    }
  }
}
