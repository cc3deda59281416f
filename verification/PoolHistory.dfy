/** What became of the worker pool's tasks, read off the outcomes of their attempts over a run. */
module PoolHistory {
  import opened Common
  import opened WorkerPool

  /** The step ends an attempt at the task. */
  predicate Ends(s: Pool, step: Step, task: nat) {
    step.Finish? && step.worker < |s.workers| && s.workers[step.worker] == Some(task)
  }

  /** The outcomes of the attempts at the task that the first `i` steps ended, in order. */
  function Outcomes(states: seq<Pool>, steps: seq<Step>, task: nat, i: nat): seq<bool>
    requires i <= |steps| < |states|
  {
    if i == 0 then []
    else
      Outcomes(states, steps, task, i - 1) + if Ends(states[i - 1], steps[i - 1], task) then [steps[i - 1].success] else []
  }

  /** How many of the first `i` steps ended an attempt with the outcome. */
  function Ended(steps: seq<Step>, success: bool, i: nat): nat
    requires i <= |steps|
  {
    if i == 0 then 0
    else Ended(steps, success, i - 1) + if steps[i - 1].Finish? && steps[i - 1].success == success then 1 else 0
  }

  predicate AllFailed(outcomes: seq<bool>) {
    forall k :: 0 <= k < |outcomes| ==> !outcomes[k]
  }

  /** The outcomes a record stands for. */
  predicate OutcomesFit(c: Config, r: Record, outcomes: seq<bool>) {
    match r.place
    case Succeeded => |outcomes| == r.attempts > 0 && outcomes[|outcomes| - 1] && AllFailed(outcomes[..|outcomes| - 1])
    case GivenUp => |outcomes| == r.attempts == c.maxRetries + 1 && AllFailed(outcomes)
    case On(_) => |outcomes| == r.retries == r.attempts - 1 <= c.maxRetries && AllFailed(outcomes)
    case _ => |outcomes| == r.retries == r.attempts <= c.maxRetries && AllFailed(outcomes)
  }

  lemma StepFits(c: Config, s: Pool, step: Step, task: nat, outcomes: seq<bool>)
    requires Inv(c, s) && Enabled(c, s, step)
    requires if task in s.records then OutcomesFit(c, s.records[task], outcomes) else outcomes == []
    ensures var t := Execute(c, s, step);
            var more := outcomes + if Ends(s, step, task) then [step.success] else [];
            if task in t.records then OutcomesFit(c, t.records[task], more) else more == []
  {
    hide Counted, Inv;
    assert Located(s) && forall u :: u in s.records ==> AttemptsFit(c, s.records[u]) by { InvMeans(c, s); }
    assert outcomes + [] == outcomes;
    if step.Finish? && Ends(s, step, task) {
      FinishFits(c, s, step, task, outcomes);
    } else {
      OtherFits(c, s, step, task, outcomes);
    }
  }

  lemma InvMeans(c: Config, s: Pool)
    requires Inv(c, s)
    ensures Located(s) && forall u :: u in s.records ==> AttemptsFit(c, s.records[u])
  {
  }

  lemma FinishFits(c: Config, s: Pool, step: Step, task: nat, outcomes: seq<bool>)
    requires Located(s) && Enabled(c, s, step) && step.Finish? && Ends(s, step, task)
    requires OutcomesFit(c, s.records[task], outcomes)
    ensures task in Execute(c, s, step).records
    ensures OutcomesFit(c, Execute(c, s, step).records[task], outcomes + [step.success])
  {
    assert s.records[task].place == On(step.worker);
    assert (outcomes + [step.success])[..|outcomes|] == outcomes;
  }

  lemma OtherFits(c: Config, s: Pool, step: Step, task: nat, outcomes: seq<bool>)
    requires Located(s) && Enabled(c, s, step) && !Ends(s, step, task)
    requires if task in s.records then OutcomesFit(c, s.records[task], outcomes) else outcomes == []
    ensures var t := Execute(c, s, step);
            if task in t.records then OutcomesFit(c, t.records[task], outcomes) else outcomes == []
  {
    hide Distinct;
    match step
    case Submit(_) =>
    case Start(_) => assert s.taskQueue[0] in s.taskQueue;
    case StartRetry(_) => assert s.retryQueue[0] in s.retryQueue;
    case Finish(w, _) => assert s.workers[w].value != task;
    case Wake(i) => assert s.sleeping[i] in s.sleeping;
    case HandOver(i, _) => assert s.sleeping[i] in s.sleeping;
  }

  lemma {:induction false} RecordsAreTheHistory(c: Config, states: seq<Pool>, steps: seq<Step>, i: nat, task: nat)
    requires Run(c, states, steps) && i < |states|
    ensures if task in states[i].records then OutcomesFit(c, states[i].records[task], Outcomes(states, steps, task, i))
            else Outcomes(states, steps, task, i) == []
  {
    if i > 0 {
      hide Execute, Enabled, Inv, OutcomesFit, Ends;
      RecordsAreTheHistory(c, states, steps, i - 1, task);
      PoolConservation(c, states, steps, i - 1);
      StepFits(c, states[i - 1], steps[i - 1], task, Outcomes(states, steps, task, i - 1));
    }
  }

  lemma OutcomesSay(c: Config, s: Pool, task: nat, outcomes: seq<bool>)
    requires Located(s)
    requires if task in s.records then OutcomesFit(c, s.records[task], outcomes) else outcomes == []
    ensures task in s.succeeded <==> outcomes != [] && outcomes[|outcomes| - 1]
    ensures task in s.givenUp <==> |outcomes| == c.maxRetries + 1 && AllFailed(outcomes)
    ensures task in s.records && task !in s.succeeded && task !in s.givenUp ==>
              AllFailed(outcomes) && s.records[task].retries == |outcomes| <= c.maxRetries
    ensures forall k :: 0 <= k < |outcomes| - 1 ==> !outcomes[k]
  {
    hide Runs;
    if task in s.records && s.records[task].place.Succeeded? {
      var most := outcomes[..|outcomes| - 1];
      assert forall k :: 0 <= k < |most| ==> outcomes[k] == most[k];
    }
  }

  /**
   * What became of a task is what its attempts say: in every run it has succeeded exactly if its last ended
   * attempt did, and is given up exactly if it failed once more than it may be retried; until then every
   * attempt failed, and it was retried for each of them.
   */
  lemma OutcomeDecidesTask(c: Config, states: seq<Pool>, steps: seq<Step>, i: nat, task: nat)
    requires Run(c, states, steps) && i < |states|
    ensures var s, outcomes := states[i], Outcomes(states, steps, task, i);
            && (task in s.succeeded <==> outcomes != [] && outcomes[|outcomes| - 1])
            && (task in s.givenUp <==> |outcomes| == c.maxRetries + 1 && AllFailed(outcomes))
            && (task in s.records && task !in s.succeeded && task !in s.givenUp ==>
                  AllFailed(outcomes) && s.records[task].retries == |outcomes| <= c.maxRetries)
            && (forall k :: 0 <= k < |outcomes| - 1 ==> !outcomes[k])
  {
    hide Execute, Enabled, Outcomes, Inv, OutcomesFit, AllFailed;
    RecordsAreTheHistory(c, states, steps, i, task);
    PoolConservation(c, states, steps, i);
    InvMeans(c, states[i]);
    OutcomesSay(c, states[i], task, Outcomes(states, steps, task, i));
  }

  /** The statistics count exactly the attempts that ended well and those that did not. */
  lemma {:induction false} StatsAreTheHistory(c: Config, states: seq<Pool>, steps: seq<Step>, i: nat)
    requires Run(c, states, steps) && i < |states|
    ensures states[i].stats.processed == Ended(steps, true, i)
    ensures states[i].stats.failed == Ended(steps, false, i)
  {
    if i > 0 {
      StatsAreTheHistory(c, states, steps, i - 1);
      StepCounted(c, states[i - 1], steps[i - 1]);
    }
  }

  lemma StepCounted(c: Config, s: Pool, step: Step)
    requires Enabled(c, s, step)
    ensures var t := Execute(c, s, step);
            && t.stats.processed == s.stats.processed + (if step.Finish? && step.success then 1 else 0)
            && t.stats.failed == s.stats.failed + if step.Finish? && !step.success then 1 else 0
  {
  }

  // ---------- the queues ----------

  /** The task that the step has an idle worker take from the task queue, if any. */
  function FirstStart(s: Pool, step: Step, t: Pool): seq<nat> {
    if step.Start? && step.worker < |t.workers| && t.workers[step.worker].Some? then [t.workers[step.worker].value] else []
  }

  /** The task that the step has an idle worker take from the retry queue, if any. */
  function Restart(s: Pool, step: Step, t: Pool): seq<nat> {
    if step.StartRetry? && step.worker < |t.workers| && t.workers[step.worker].Some? then [t.workers[step.worker].value] else []
  }

  /** The task whose delay the step ends into the retry queue, if any. */
  function Woken(s: Pool, step: Step, t: Pool): seq<nat> {
    if step.Wake? && step.index < |s.sleeping| then [s.sleeping[step.index]] else []
  }

  /** What the first `i` steps say, one after the other. */
  function Gathered(what: (Pool, Step, Pool) -> seq<nat>, states: seq<Pool>, steps: seq<Step>, i: nat): seq<nat>
    requires i <= |steps| < |states|
  {
    if i == 0 then [] else Gathered(what, states, steps, i - 1) + what(states[i - 1], steps[i - 1], states[i])
  }

  lemma StepServes(c: Config, s: Pool, step: Step)
    requires Enabled(c, s, step)
    requires |s.taskQueue| <= c.queueSize && |s.retryQueue| <= c.queueSize / 2
    ensures var t := Execute(c, s, step);
            && FirstStart(s, step, t) + t.taskQueue == s.taskQueue + t.submitted[|s.submitted|..]
            && t.submitted == s.submitted + (if step.Submit? && |s.taskQueue| < c.queueSize then [step.task] else [])
            && Restart(s, step, t) + t.retryQueue == s.retryQueue + Woken(s, step, t)
            && |t.taskQueue| <= c.queueSize && |t.retryQueue| <= c.queueSize / 2
  {
    hide Without;
  }

  /** Both queues are served in order, and neither ever holds more than its capacity. */
  lemma {:induction false} QueuesAreServedInOrder(c: Config, states: seq<Pool>, steps: seq<Step>, i: nat)
    requires Run(c, states, steps) && i < |states|
    ensures Gathered(FirstStart, states, steps, i) + states[i].taskQueue == states[i].submitted
    ensures Gathered(Restart, states, steps, i) + states[i].retryQueue == Gathered(Woken, states, steps, i)
    ensures |states[i].taskQueue| <= c.queueSize && |states[i].retryQueue| <= c.queueSize / 2
  {
    if i > 0 {
      hide Execute, Enabled, FirstStart, Restart, Woken;
      QueuesAreServedInOrder(c, states, steps, i - 1);
      var s, t, step := states[i - 1], states[i], steps[i - 1];
      StepServes(c, s, step);
      Shifted(Gathered(FirstStart, states, steps, i - 1), s.taskQueue, FirstStart(s, step, t), t.taskQueue,
              t.submitted[|s.submitted|..]);
      Shifted(Gathered(Restart, states, steps, i - 1), s.retryQueue, Restart(s, step, t), t.retryQueue, Woken(s, step, t));
      assert t.submitted == s.submitted + t.submitted[|s.submitted|..];
    }
  }

  /** Taking from the front and adding at the end moves the border between what was served and what waits. */
  lemma Shifted(served: seq<nat>, waiting: seq<nat>, taken: seq<nat>, still: seq<nat>, added: seq<nat>)
    requires taken + still == waiting + added
    ensures (served + taken) + still == (served + waiting) + added
  {
    assert (served + taken) + still == served + (taken + still);
    assert (served + waiting) + added == served + (waiting + added);
  }

  /** A submission is accepted exactly if fewer tasks wait to be started for the first time than the queue holds. */
  lemma SubmissionDecided(c: Config, states: seq<Pool>, steps: seq<Step>, i: nat)
    requires Run(c, states, steps) && i < |steps| && steps[i].Submit?
    ensures states[i + 1].submitted ==
            if |states[i].submitted| - |Gathered(FirstStart, states, steps, i)| < c.queueSize
            then states[i].submitted + [steps[i].task] else states[i].submitted
  {
    QueuesAreServedInOrder(c, states, steps, i);
  }
}
