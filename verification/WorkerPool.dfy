/**
 * The retrying worker pool before shutdown: submitters, workers and the sleeping retries interleave.
 * Tasks are identified by number, each submitted once.
 */
module WorkerPool {
  import opened Common

  datatype Config = Config(workerCount: nat, queueSize: nat, maxRetries: nat)

  /** `failed` counts failed attempts, `retried` those put back, `queued` the pool's own queue counter. */
  datatype Stats = Stats(queued: int, processed: nat, failed: nat, retried: nat)

  datatype Place = Queued | Retrying | On(worker: nat) | Sleeping | Succeeded | GivenUp

  /** What became of a task: where it is, how often it was retried and how often it was started. */
  datatype Record = Record(place: Place, retries: nat, attempts: nat)

  /**
   * `workers[w]` is the task worker `w` is running; `sleeping` are the tasks waiting out the retry
   * delay.  `records` follows every submitted task through the pool.
   */
  datatype Pool = Pool(
    taskQueue: seq<nat>, retryQueue: seq<nat>, workers: seq<Option<nat>>, sleeping: seq<nat>,
    succeeded: seq<nat>, givenUp: seq<nat>, submitted: seq<nat>, records: map<nat, Record>, stats: Stats)

  datatype Step =
    | Submit(task: nat)
    | Start(worker: nat)
    | StartRetry(worker: nat)
    | Finish(worker: nat, success: bool)
    | Wake(index: nat)
    | HandOver(index: nat, worker: nat)

  function RetryCapacity(c: Config): nat { c.queueSize / 2 }

  predicate Idle(s: Pool, w: nat) { w < |s.workers| && s.workers[w].None? }

  predicate Busy(s: Pool, w: nat) { w < |s.workers| && s.workers[w].Some? }

  predicate Enabled(c: Config, s: Pool, step: Step) {
    match step
    case Submit(task) => task !in s.records
    case Start(w) => Idle(s, w) && s.taskQueue != [] && s.taskQueue[0] in s.records
    case StartRetry(w) => Idle(s, w) && s.retryQueue != [] && s.retryQueue[0] in s.records
    case Finish(w, _) => Busy(s, w) && s.workers[w].value in s.records
    case Wake(i) => i < |s.sleeping| && s.sleeping[i] in s.records && |s.retryQueue| < RetryCapacity(c)
    case HandOver(i, w) => i < |s.sleeping| && s.sleeping[i] in s.records && RetryCapacity(c) == 0 && Idle(s, w)
  }

  function Without(s: seq<nat>, i: nat): seq<nat>
    requires i < |s|
  {
    s[..i] + s[i + 1..]
  }

  function Began(s: Pool, w: nat, task: nat): Pool
    requires w < |s.workers| && task in s.records
  {
    var r := s.records[task];
    s.(workers := s.workers[w := Some(task)], records := s.records[task := Record(On(w), r.retries, r.attempts + 1)])
  }

  function Moved(s: Pool, task: nat, place: Place): map<nat, Record>
    requires task in s.records
  {
    s.records[task := s.records[task].(place := place)]
  }

  function Finished(c: Config, s: Pool, w: nat, success: bool): Pool
    requires Busy(s, w) && s.workers[w].value in s.records
  {
    var task := s.workers[w].value;
    var r := s.records[task];
    var s' := s.(workers := s.workers[w := None]);
    var stats := s.stats.(queued := s.stats.queued - 1);
    if success then
      s'.(succeeded := s.succeeded + [task], records := Moved(s, task, Succeeded),
          stats := stats.(processed := stats.processed + 1))
    else if r.retries < c.maxRetries then
      s'.(sleeping := s.sleeping + [task], records := s.records[task := Record(Sleeping, r.retries + 1, r.attempts)],
          stats := stats.(failed := stats.failed + 1, retried := stats.retried + 1))
    else
      s'.(givenUp := s.givenUp + [task], records := Moved(s, task, GivenUp), stats := stats.(failed := stats.failed + 1))
  }

  function Execute(c: Config, s: Pool, step: Step): Pool
    requires Enabled(c, s, step)
  {
    match step
    case Submit(task) =>
      if |s.taskQueue| < c.queueSize then
        s.(taskQueue := s.taskQueue + [task], submitted := s.submitted + [task],
           records := s.records[task := Record(Queued, 0, 0)], stats := s.stats.(queued := s.stats.queued + 1))
      else s
    case Start(w) => Began(s.(taskQueue := s.taskQueue[1..]), w, s.taskQueue[0])
    case StartRetry(w) => Began(s.(retryQueue := s.retryQueue[1..]), w, s.retryQueue[0])
    case Finish(w, success) => Finished(c, s, w, success)
    case Wake(i) =>
      s.(sleeping := Without(s.sleeping, i), retryQueue := s.retryQueue + [s.sleeping[i]],
         records := Moved(s, s.sleeping[i], Retrying))
    case HandOver(i, w) => Began(s.(sleeping := Without(s.sleeping, i)), w, s.sleeping[i])
  }

  function Initial(c: Config): Pool {
    Pool([], [], seq(c.workerCount, i => None), [], [], [], [], map[], Stats(0, 0, 0, 0))
  }

  // ---------- the pool object ----------

  class WorkerPool {
    const config: Config
    var taskQueue: seq<nat>
    var retryQueue: seq<nat>
    var workers: seq<Option<nat>>
    var records: map<nat, Record>
    var stats: Stats
    ghost var sleeping: seq<nat>
    ghost var succeeded: seq<nat>
    ghost var givenUp: seq<nat>
    ghost var submitted: seq<nat>

    ghost function Abs(): Pool
      reads this
    {
      Pool(taskQueue, retryQueue, workers, sleeping, succeeded, givenUp, submitted, records, stats)
    }

    constructor (config: Config)
      ensures this.config == config && Abs() == Initial(config)
    {
      this.config := config;
      taskQueue, retryQueue, workers, records := [], [], seq(config.workerCount, i => None), map[];
      stats := Stats(0, 0, 0, 0);
      sleeping, succeeded, givenUp, submitted := [], [], [], [];
    }

    method SubmitTask(task: nat) returns (ok: bool)
      requires task !in records
      modifies this
      ensures Abs() == Execute(config, old(Abs()), Submit(task))
      ensures ok <==> |old(taskQueue)| < config.queueSize
    {
      if |taskQueue| >= config.queueSize {
        return false;
      }
      taskQueue := taskQueue + [task];
      stats := stats.(queued := stats.queued + 1);
      records, submitted := records[task := Record(Queued, 0, 0)], submitted + [task];
      ok := true;
    }

    /** A worker receives from the task queue or from the retry queue. */
    method Take(w: nat, retry: bool)
      requires Enabled(config, Abs(), if retry then StartRetry(w) else Start(w))
      modifies this
      ensures Abs() == Execute(config, old(Abs()), if retry then StartRetry(w) else Start(w))
    {
      var task: nat;
      if retry {
        task, retryQueue := retryQueue[0], retryQueue[1..];
      } else {
        task, taskQueue := taskQueue[0], taskQueue[1..];
      }
      workers := workers[w := Some(task)];
      records := records[task := Record(On(w), records[task].retries, records[task].attempts + 1)];
    }

    /** The end of one attempt: success, or an error or timeout handed to the error handling. */
    method ProcessResult(w: nat, success: bool)
      requires Enabled(config, Abs(), Finish(w, success))
      modifies this
      ensures Abs() == Execute(config, old(Abs()), Finish(w, success))
    {
      var task := workers[w].value;
      workers := workers[w := None];
      stats := stats.(queued := stats.queued - 1);
      if success {
        stats := stats.(processed := stats.processed + 1);
        records, succeeded := records[task := records[task].(place := Succeeded)], succeeded + [task];
      } else {
        HandleTaskError(task);
      }
    }

    method HandleTaskError(task: nat)
      requires task in records
      modifies this`records, this`stats, this`sleeping, this`givenUp
      ensures
        var r := old(records)[task];
        if r.retries < config.maxRetries then
          && records == old(records)[task := Record(Sleeping, r.retries + 1, r.attempts)]
          && stats == old(stats).(failed := old(stats).failed + 1, retried := old(stats).retried + 1)
          && sleeping == old(sleeping) + [task] && givenUp == old(givenUp)
        else
          && records == old(records)[task := r.(place := GivenUp)]
          && stats == old(stats).(failed := old(stats).failed + 1)
          && sleeping == old(sleeping) && givenUp == old(givenUp) + [task]
    {
      stats := stats.(failed := stats.failed + 1);
      var r := records[task];
      if r.retries < config.maxRetries {
        stats := stats.(retried := stats.retried + 1);
        records, sleeping := records[task := Record(Sleeping, r.retries + 1, r.attempts)], sleeping + [task];
      } else {
        records, givenUp := records[task := r.(place := GivenUp)], givenUp + [task];
      }
    }

    /** A retry delay ends and the retry queue has room. */
    method WakeUp(ghost index: nat, task: nat)
      requires Enabled(config, Abs(), Wake(index)) && task == sleeping[index]
      modifies this
      ensures Abs() == Execute(config, old(Abs()), Wake(index))
    {
      retryQueue := retryQueue + [task];
      records := records[task := records[task].(place := Retrying)];
      sleeping := Without(sleeping, index);
    }

    /** A retry delay ends and the retry queue, which holds nothing, passes the task straight to an idle worker. */
    method HandOverRetry(ghost index: nat, task: nat, w: nat)
      requires Enabled(config, Abs(), HandOver(index, w)) && task == sleeping[index]
      modifies this
      ensures Abs() == Execute(config, old(Abs()), HandOver(index, w))
    {
      workers := workers[w := Some(task)];
      records := records[task := Record(On(w), records[task].retries, records[task].attempts + 1)];
      sleeping := Without(sleeping, index);
    }
  }

  // ---------- where the tasks are ----------

  predicate Distinct(s: seq<nat>) {
    forall i, j :: 0 <= i < j < |s| ==> s[i] != s[j]
  }

  /** The queue holds exactly the tasks recorded at `place`, each once. */
  ghost predicate Holds(records: map<nat, Record>, queue: seq<nat>, place: Place) {
    && Distinct(queue)
    && (forall t :: t in queue <==> t in records && records[t].place == place)
  }

  /** The workers run exactly the tasks recorded on them. */
  ghost predicate Runs(records: map<nat, Record>, workers: seq<Option<nat>>) {
    && (forall t :: t in records && records[t].place.On? ==>
          records[t].place.worker < |workers| && workers[records[t].place.worker] == Some(t))
    && (forall w :: 0 <= w < |workers| && workers[w].Some? ==>
          workers[w].value in records && records[workers[w].value].place == On(w))
  }

  /** Every submitted task is in exactly one place: the one its record names. */
  ghost predicate Located(s: Pool) {
    && Holds(s.records, s.taskQueue, Queued) && Holds(s.records, s.retryQueue, Retrying)
    && Holds(s.records, s.sleeping, Sleeping) && Holds(s.records, s.succeeded, Succeeded)
    && Holds(s.records, s.givenUp, GivenUp) && Runs(s.records, s.workers)
    && Distinct(s.submitted) && (forall t :: t in s.submitted <==> t in s.records)
  }

  /** How often a task was started, given where it is. */
  predicate AttemptsFit(c: Config, r: Record) {
    && r.retries <= c.maxRetries
    && match r.place
       case Queued => r.attempts == 0 && r.retries == 0
       case Retrying => r.attempts == r.retries
       case Sleeping => r.attempts == r.retries
       case On(_) => r.attempts == r.retries + 1
       case Succeeded => r.attempts == r.retries + 1
       case GivenUp => r.attempts == r.retries + 1 && r.retries == c.maxRetries
  }

  function Active(workers: seq<Option<nat>>): nat {
    if workers == [] then 0 else Active(workers[..|workers| - 1]) + if workers[|workers| - 1].Some? then 1 else 0
  }

  function Pending(s: Pool): nat {
    |s.taskQueue| + |s.retryQueue| + |s.sleeping| + Active(s.workers)
  }

  function TotalRetries(tasks: seq<nat>, records: map<nat, Record>): nat {
    if tasks == [] then 0
    else
      var last := tasks[|tasks| - 1];
      TotalRetries(tasks[..|tasks| - 1], records) + if last in records then records[last].retries else 0
  }

  ghost predicate Counted(s: Pool) {
    && |s.submitted| == Pending(s) + |s.succeeded| + |s.givenUp|
    && s.stats.failed == s.stats.retried + |s.givenUp|
    && s.stats.processed == |s.succeeded|
    && s.stats.queued == Pending(s) - s.stats.retried
    && s.stats.retried == TotalRetries(s.submitted, s.records)
  }

  ghost predicate Inv(c: Config, s: Pool) {
    && Located(s) && Counted(s) && |s.workers| == c.workerCount
    && forall t :: t in s.records ==> AttemptsFit(c, s.records[t])
  }

  // ---------- one step ----------

  lemma {:induction false} ActiveUpdate(workers: seq<Option<nat>>, w: nat, o: Option<nat>)
    requires w < |workers|
    ensures Active(workers[w := o]) + (if workers[w].Some? then 1 else 0) == Active(workers) + if o.Some? then 1 else 0
  {
    var n := |workers| - 1;
    if w < n {
      assert workers[w := o][..n] == workers[..n][w := o];
      ActiveUpdate(workers[..n], w, o);
    } else {
      assert workers[w := o][..n] == workers[..n];
    }
  }

  lemma {:induction false} TotalRetriesFrame(tasks: seq<nat>, r: map<nat, Record>, q: map<nat, Record>)
    requires forall t :: t in tasks ==> t in r && t in q && r[t].retries == q[t].retries
    ensures TotalRetries(tasks, r) == TotalRetries(tasks, q)
  {
    if tasks != [] {
      TotalRetriesFrame(tasks[..|tasks| - 1], r, q);
      assert tasks[|tasks| - 1] in tasks;
    }
  }

  lemma {:induction false} TotalRetriesBump(tasks: seq<nat>, r: map<nat, Record>, q: map<nat, Record>, t: nat)
    requires Distinct(tasks) && t in tasks
    requires forall u :: u in tasks ==> u in r && u in q && q[u].retries == r[u].retries + if u == t then 1 else 0
    ensures TotalRetries(tasks, q) == TotalRetries(tasks, r) + 1
  {
    var n := |tasks| - 1;
    assert tasks[n] in tasks;
    if tasks[n] == t {
      assert t !in tasks[..n];
      TotalRetriesFrame(tasks[..n], r, q);
    } else {
      assert t in tasks[..n];
      TotalRetriesBump(tasks[..n], r, q, t);
    }
  }

  lemma {:induction false} TotalRetriesBound(tasks: seq<nat>, r: map<nat, Record>, limit: nat)
    requires forall t :: t in tasks && t in r ==> r[t].retries <= limit
    ensures TotalRetries(tasks, r) <= limit * |tasks|
  {
    if tasks != [] {
      TotalRetriesBound(tasks[..|tasks| - 1], r, limit);
      assert tasks[|tasks| - 1] in tasks;
      assert limit * |tasks| == limit * (|tasks| - 1) + limit;
    }
  }

  lemma HoldsSame(records: map<nat, Record>, task: nat, r: Record, queue: seq<nat>, place: Place)
    requires Holds(records, queue, place) && r.place != place && (task in records ==> records[task].place != place)
    ensures Holds(records[task := r], queue, place)
  {
  }

  lemma HoldsMore(records: map<nat, Record>, task: nat, r: Record, queue: seq<nat>, place: Place)
    requires Holds(records, queue, place) && r.place == place && (task in records ==> records[task].place != place)
    ensures Holds(records[task := r], queue + [task], place)
  {
    assert task !in queue;
  }

  lemma HeldThere(records: map<nat, Record>, i: nat, queue: seq<nat>, place: Place)
    requires i < |queue| && Holds(records, queue, place)
    ensures queue[i] in records && records[queue[i]].place == place
  {
    assert queue[i] in queue;
  }

  lemma HoldsLess(records: map<nat, Record>, i: nat, r: Record, queue: seq<nat>, place: Place)
    requires i < |queue| && Holds(records, queue, place) && r.place != place
    ensures Holds(records[queue[i] := r], Without(queue, i), place)
  {
    var rest := Without(queue, i);
    forall t ensures t in rest <==> t in queue && t != queue[i] {
      if t in queue && t != queue[i] {
        var j :| 0 <= j < |queue| && queue[j] == t;
        assert rest[if j < i then j else j - 1] == t;
      }
    }
  }

  /** The tasks elsewhere do not notice that `task` moves from `from` to the place of `r`. */
  lemma OthersHold(s: Pool, task: nat, r: Record, from: Place)
    requires Located(s) && task in s.records && s.records[task].place == from
    ensures from != Queued && r.place != Queued ==> Holds(s.records[task := r], s.taskQueue, Queued)
    ensures from != Retrying && r.place != Retrying ==> Holds(s.records[task := r], s.retryQueue, Retrying)
    ensures from != Sleeping && r.place != Sleeping ==> Holds(s.records[task := r], s.sleeping, Sleeping)
    ensures r.place != Succeeded && from != Succeeded ==> Holds(s.records[task := r], s.succeeded, Succeeded)
    ensures r.place != GivenUp && from != GivenUp ==> Holds(s.records[task := r], s.givenUp, GivenUp)
    ensures !from.On? && !r.place.On? ==> Runs(s.records[task := r], s.workers)
  {
  }

  lemma SubmitKeepsLocated(c: Config, s: Pool, task: nat)
    requires Located(s) && Enabled(c, s, Submit(task))
    ensures Located(Execute(c, s, Submit(task)))
  {
    var t, r := Execute(c, s, Submit(task)), Record(Queued, 0, 0);
    if |s.taskQueue| < c.queueSize {
      HoldsMore(s.records, task, r, s.taskQueue, Queued);
      HoldsSame(s.records, task, r, s.retryQueue, Retrying);
      HoldsSame(s.records, task, r, s.sleeping, Sleeping);
      HoldsSame(s.records, task, r, s.succeeded, Succeeded);
      HoldsSame(s.records, task, r, s.givenUp, GivenUp);
      assert task !in s.submitted;
      assert Runs(t.records, t.workers);
    }
  }

  lemma SubmitKeepsCounted(c: Config, s: Pool, task: nat)
    requires Counted(s) && Enabled(c, s, Submit(task))
    requires forall t :: t in s.submitted <==> t in s.records
    ensures Counted(Execute(c, s, Submit(task)))
  {
    var t := Execute(c, s, Submit(task));
    if |s.taskQueue| < c.queueSize {
      assert t.submitted[..|s.submitted|] == s.submitted && task !in s.submitted;
      TotalRetriesFrame(s.submitted, s.records, t.records);
    }
  }

  lemma SubmitKeepsInv(c: Config, s: Pool, task: nat)
    requires Inv(c, s) && Enabled(c, s, Submit(task))
    ensures Inv(c, Execute(c, s, Submit(task)))
  {
    hide Holds, Runs, Counted;
    SubmitKeepsLocated(c, s, task);
    SubmitKeepsCounted(c, s, task);
  }

  lemma RunsStart(records: map<nat, Record>, workers: seq<Option<nat>>, w: nat, task: nat, r: Record)
    requires Runs(records, workers) && w < |workers| && workers[w].None? && r.place == On(w)
    requires task in records && !records[task].place.On?
    ensures Runs(records[task := r], workers[w := Some(task)])
  {
  }

  lemma RunsStop(records: map<nat, Record>, workers: seq<Option<nat>>, w: nat, r: Record)
    requires Runs(records, workers) && w < |workers| && workers[w].Some? && !r.place.On?
    ensures Runs(records[workers[w].value := r], workers[w := None])
  {
  }

  function Waiting(s: Pool, place: Place): seq<nat>
    requires place.Queued? || place.Retrying? || place.Sleeping?
  {
    if place == Queued then s.taskQueue else if place == Retrying then s.retryQueue else s.sleeping
  }

  /** The pool after task `i` of a queue has left it for worker `w`. */
  function BeganFrom(s: Pool, place: Place, i: nat, w: nat): Pool
    requires place.Queued? || place.Retrying? || place.Sleeping?
    requires w < |s.workers| && i < |Waiting(s, place)| && Waiting(s, place)[i] in s.records
  {
    var rest := Without(Waiting(s, place), i);
    Began(if place == Queued then s.(taskQueue := rest)
          else if place == Retrying then s.(retryQueue := rest) else s.(sleeping := rest), w, Waiting(s, place)[i])
  }

  lemma BeganLocated(s: Pool, place: Place, i: nat, w: nat)
    requires Located(s) && Idle(s, w) && (place.Queued? || place.Retrying? || place.Sleeping?)
    requires i < |Waiting(s, place)| && Waiting(s, place)[i] in s.records
    ensures Located(BeganFrom(s, place, i, w))
    ensures s.records[Waiting(s, place)[i]].place == place
  {
    hide Holds, Runs;
    var queue := Waiting(s, place);
    var task := queue[i];
    HeldThere(s.records, i, queue, place);
    var r := Record(On(w), s.records[task].retries, s.records[task].attempts + 1);
    HoldsLess(s.records, i, r, queue, place);
    OthersHold(s, task, r, place);
    RunsStart(s.records, s.workers, w, task, r);
    assert BeganFrom(s, place, i, w).records == s.records[task := r];
  }

  lemma BeganCounted(s: Pool, place: Place, i: nat, w: nat)
    requires Counted(s) && Idle(s, w) && (place.Queued? || place.Retrying? || place.Sleeping?)
    requires i < |Waiting(s, place)| && Waiting(s, place)[i] in s.records
    requires forall t :: t in s.submitted ==> t in s.records
    ensures Counted(BeganFrom(s, place, i, w))
  {
    var t := BeganFrom(s, place, i, w);
    ActiveUpdate(s.workers, w, Some(Waiting(s, place)[i]));
    TotalRetriesFrame(s.submitted, s.records, t.records);
  }

  /** Starting a task moves it from where it waited to a worker. */
  lemma BeganKeepsInv(c: Config, s: Pool, place: Place, i: nat, w: nat)
    requires Inv(c, s) && Idle(s, w) && (place.Queued? || place.Retrying? || place.Sleeping?)
    requires i < |Waiting(s, place)| && Waiting(s, place)[i] in s.records
    ensures Inv(c, BeganFrom(s, place, i, w))
  {
    hide Counted, Holds, Runs;
    BeganLocated(s, place, i, w);
    BeganCounted(s, place, i, w);
    assert AttemptsFit(c, s.records[Waiting(s, place)[i]]);
  }

  lemma FinishLocated(c: Config, s: Pool, w: nat, success: bool)
    requires Located(s) && Enabled(c, s, Finish(w, success))
    ensures Located(Finished(c, s, w, success))
  {
    var task, t := s.workers[w].value, Finished(c, s, w, success);
    var r := t.records[task];
    assert t.records == s.records[task := r];
    OthersHold(s, task, r, On(w));
    RunsStop(s.records, s.workers, w, r);
    HoldsMore(s.records, task, r, if success then s.succeeded else if r.place == Sleeping then s.sleeping else s.givenUp, r.place);
  }

  lemma FinishCounted(c: Config, s: Pool, w: nat, success: bool)
    requires Counted(s) && Enabled(c, s, Finish(w, success))
    requires Distinct(s.submitted) && forall t :: t in s.submitted <==> t in s.records
    ensures Counted(Finished(c, s, w, success))
  {
    var task, t := s.workers[w].value, Finished(c, s, w, success);
    ActiveUpdate(s.workers, w, None);
    if t.records[task].place == Sleeping {
      TotalRetriesBump(s.submitted, s.records, t.records, task);
    } else {
      TotalRetriesFrame(s.submitted, s.records, t.records);
    }
  }

  lemma FinishKeepsInv(c: Config, s: Pool, w: nat, success: bool)
    requires Inv(c, s) && Enabled(c, s, Finish(w, success))
    ensures Inv(c, Finished(c, s, w, success))
  {
    FinishLocated(c, s, w, success);
    FinishCounted(c, s, w, success);
    assert AttemptsFit(c, s.records[s.workers[w].value]);
  }

  lemma WakeLocated(c: Config, s: Pool, i: nat)
    requires Located(s) && Enabled(c, s, Wake(i))
    ensures Located(Execute(c, s, Wake(i)))
  {
    var task, t := s.sleeping[i], Execute(c, s, Wake(i));
    assert task in s.sleeping;
    var r := t.records[task];
    assert t.records == s.records[task := r];
    OthersHold(s, task, r, Sleeping);
    HoldsLess(s.records, i, r, s.sleeping, Sleeping);
    HoldsMore(s.records, task, r, s.retryQueue, Retrying);
  }

  lemma WakeKeepsInv(c: Config, s: Pool, i: nat)
    requires Inv(c, s) && Enabled(c, s, Wake(i))
    ensures Inv(c, Execute(c, s, Wake(i)))
  {
    WakeLocated(c, s, i);
    assert s.sleeping[i] in s.sleeping && AttemptsFit(c, s.records[s.sleeping[i]]);
    TotalRetriesFrame(s.submitted, s.records, Execute(c, s, Wake(i)).records);
  }

  lemma StepKeepsInv(c: Config, s: Pool, step: Step)
    requires Inv(c, s) && Enabled(c, s, step)
    ensures Inv(c, Execute(c, s, step))
  {
    match step
    case Submit(task) => SubmitKeepsInv(c, s, task);
    case Start(w) =>
      assert Without(s.taskQueue, 0) == s.taskQueue[1..];
      BeganKeepsInv(c, s, Queued, 0, w);
    case StartRetry(w) =>
      assert Without(s.retryQueue, 0) == s.retryQueue[1..];
      BeganKeepsInv(c, s, Retrying, 0, w);
    case Finish(w, success) => FinishKeepsInv(c, s, w, success);
    case Wake(i) => WakeKeepsInv(c, s, i);
    case HandOver(i, w) => BeganKeepsInv(c, s, Sleeping, i, w);
  }

  // ---------- every run ----------

  ghost predicate Run(c: Config, states: seq<Pool>, steps: seq<Step>) {
    && |states| == |steps| + 1 && states[0] == Initial(c)
    && forall i :: 0 <= i < |steps| ==> Enabled(c, states[i], steps[i]) && states[i + 1] == Execute(c, states[i], steps[i])
  }

  lemma {:induction false} NoneActive(n: nat)
    ensures Active(seq(n, i => None)) == 0
  {
    if n > 0 {
      assert seq<Option<nat>>(n, i => None)[..n - 1] == seq<Option<nat>>(n - 1, i => None);
      NoneActive(n - 1);
    }
  }

  /** Task conservation and the failure accounting hold in every state of every run. */
  lemma {:induction false} PoolConservation(c: Config, states: seq<Pool>, steps: seq<Step>, i: nat)
    requires Run(c, states, steps) && i < |states|
    ensures Inv(c, states[i])
    ensures states[i].stats.failed == states[i].stats.retried + |states[i].givenUp|
  {
    if i == 0 {
      NoneActive(c.workerCount);
    } else {
      PoolConservation(c, states, steps, i - 1);
      StepKeepsInv(c, states[i - 1], steps[i - 1]);
    }
  }

  /** No task is ever started more than once plus the retry limit, and only a task started that often is given up. */
  lemma AttemptBound(c: Config, states: seq<Pool>, steps: seq<Step>, i: nat, t: nat)
    requires Run(c, states, steps) && i < |states| && t in states[i].records
    ensures states[i].records[t].attempts <= c.maxRetries + 1
    ensures t in states[i].givenUp ==> states[i].records[t].attempts == c.maxRetries + 1
  {
    PoolConservation(c, states, steps, i);
    assert AttemptsFit(c, states[i].records[t]);
  }

  /** The pool's internal queue counter, which statistics replace by the queue's length, is short by one for every retry ever made. */
  lemma QueueCounterDrifts(c: Config, states: seq<Pool>, steps: seq<Step>, i: nat)
    requires Run(c, states, steps) && i < |states|
    ensures states[i].stats.queued == Pending(states[i]) <==> states[i].stats.retried == 0
  {
    PoolConservation(c, states, steps, i);
  }

  // ---------- draining ----------

  function Measure(c: Config, s: Pool): int {
    3 * (c.maxRetries * |s.submitted| - s.stats.retried)
    + 2 * |s.taskQueue| + 2 * |s.retryQueue| + Active(s.workers) + 3 * |s.sleeping|
  }

  lemma MeasureDecreases(c: Config, s: Pool, step: Step)
    requires Inv(c, s) && Enabled(c, s, step) && !step.Submit?
    ensures Measure(c, Execute(c, s, step)) < Measure(c, s)
  {
    var t := Execute(c, s, step);
    assert t.submitted == s.submitted;
    match step
    case Start(w) => ActiveUpdate(s.workers, w, t.workers[w]);
    case StartRetry(w) => ActiveUpdate(s.workers, w, t.workers[w]);
    case Finish(w, _) => ActiveUpdate(s.workers, w, None);
    case Wake(_) =>
    case HandOver(_, w) => ActiveUpdate(s.workers, w, t.workers[w]);
  }

  lemma MeasureNonNegative(c: Config, s: Pool)
    requires Inv(c, s)
    ensures Measure(c, s) >= 0
  {
    forall t | t in s.submitted && t in s.records ensures s.records[t].retries <= c.maxRetries {
      assert AttemptsFit(c, s.records[t]);
    }
    TotalRetriesBound(s.submitted, s.records, c.maxRetries);
  }

  lemma {:induction false} MeasureOverRun(c: Config, states: seq<Pool>, steps: seq<Step>, i: nat, j: nat)
    requires Run(c, states, steps) && i <= j < |states|
    requires forall k :: i <= k < j ==> !steps[k].Submit?
    ensures Measure(c, states[j]) + (j - i) <= Measure(c, states[i])
  {
    if i < j {
      MeasureOverRun(c, states, steps, i, j - 1);
      PoolConservation(c, states, steps, j - 1);
      MeasureDecreases(c, states[j - 1], steps[j - 1]);
    }
  }

  /** Without new submissions no run is longer than the measure of the state it starts from. */
  lemma DrainsInBoundedSteps(c: Config, states: seq<Pool>, steps: seq<Step>, i: nat, j: nat)
    requires Run(c, states, steps) && i <= j < |states|
    requires forall k :: i <= k < j ==> !steps[k].Submit?
    ensures j - i <= Measure(c, states[i])
  {
    MeasureOverRun(c, states, steps, i, j);
    PoolConservation(c, states, steps, j);
    MeasureNonNegative(c, states[j]);
  }

  predicate Done(r: Record) {
    r.place.Succeeded? || r.place.GivenUp?
  }

  /** A task that is not done keeps some step possible. */
  lemma SomeStep(c: Config, s: Pool, t: nat) returns (step: Step)
    requires Inv(c, s) && c.workerCount > 0 && t in s.records && !Done(s.records[t])
    ensures Enabled(c, s, step) && !step.Submit?
  {
    var r := s.records[t];
    if s.workers[0].Some? {
      step := Finish(0, true);
    } else if r.place.On? {
      step := Finish(r.place.worker, true);
    } else if r.place.Queued? {
      assert t in s.taskQueue && s.taskQueue[0] in s.taskQueue;
      step := Start(0);
    } else if s.retryQueue != [] {
      assert s.retryQueue[0] in s.retryQueue;
      step := StartRetry(0);
    } else {
      assert t !in s.retryQueue && t in s.sleeping && s.sleeping[0] in s.sleeping;
      step := if RetryCapacity(c) == 0 then HandOver(0, 0) else Wake(0);
    }
  }

  /** A possible step other than a submission concerns a task that is not done. */
  lemma SomeTask(c: Config, s: Pool, step: Step) returns (t: nat)
    requires Inv(c, s) && Enabled(c, s, step) && !step.Submit?
    ensures t in s.records && !Done(s.records[t])
  {
    match step
    case Start(_) => t := s.taskQueue[0]; assert t in s.taskQueue;
    case StartRetry(_) => t := s.retryQueue[0]; assert t in s.retryQueue;
    case Finish(w, _) => t := s.workers[w].value;
    case Wake(i) => t := s.sleeping[i]; assert t in s.sleeping;
    case HandOver(i, _) => t := s.sleeping[i]; assert t in s.sleeping;
  }

  /** With a worker at all, the pool stops exactly when every submitted task has succeeded or been given up. */
  lemma StopsOnlyWhenDrained(c: Config, s: Pool)
    requires Inv(c, s) && c.workerCount > 0
    ensures (exists step: Step :: Enabled(c, s, step) && !step.Submit?) <==>
            (exists t :: t in s.records && !Done(s.records[t]))
  {
    if t :| t in s.records && !Done(s.records[t]) {
      var step := SomeStep(c, s, t);
    }
    if step: Step :| Enabled(c, s, step) && !step.Submit? {
      var t := SomeTask(c, s, step);
    }
  }
}
