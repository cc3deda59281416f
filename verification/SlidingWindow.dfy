/** Pruned sliding-window counters with a running total. */
module SlidingWindow {

  datatype Entry = Entry(count: int, timestamp: int)

  /** Entries from the first one later than `cutoff` on. */
  function Prune(entries: seq<Entry>, cutoff: int): seq<Entry> {
    if entries == [] then []
    else if entries[0].timestamp > cutoff then entries
    else Prune(entries[1..], cutoff)
  }

  function Sum(entries: seq<Entry>): int {
    if entries == [] then 0 else entries[0].count + Sum(entries[1..])
  }

  /** Sum over the entries with a timestamp strictly after `cutoff`. */
  function SumAfter(entries: seq<Entry>, cutoff: int): int {
    if entries == [] then 0
    else (if entries[0].timestamp > cutoff then entries[0].count else 0) + SumAfter(entries[1..], cutoff)
  }

  predicate Ordered(entries: seq<Entry>) {
    forall i, j :: 0 <= i < j < |entries| ==> entries[i].timestamp <= entries[j].timestamp
  }

  // ---------- what pruning keeps ----------

  /** `recent` is `recorded` without a prefix whose entries are no later than `cutoff`. */
  ghost predicate Kept(recorded: seq<Entry>, recent: seq<Entry>, cutoff: int) {
    && |recent| <= |recorded|
    && recorded[|recorded| - |recent|..] == recent
    && forall i :: 0 <= i < |recorded| - |recent| ==> recorded[i].timestamp <= cutoff
  }

  lemma {:induction false} SumAppend(entries: seq<Entry>, entry: Entry)
    ensures Sum(entries + [entry]) == Sum(entries) + entry.count
  {
    if entries != [] {
      assert (entries + [entry])[1..] == entries[1..] + [entry];
      SumAppend(entries[1..], entry);
    }
  }

  lemma KeptAfterAdd(recorded: seq<Entry>, recent: seq<Entry>, cutoff: int, entry: Entry)
    requires Kept(recorded, recent, cutoff)
    ensures Kept(recorded + [entry], recent + [entry], cutoff)
  {
  }

  lemma {:induction false} KeptAfterPrune(recorded: seq<Entry>, recent: seq<Entry>, cutoff: int, later: int)
    requires Kept(recorded, recent, cutoff) && cutoff <= later
    ensures Kept(recorded, Prune(recent, later), later)
    decreases |recent|
  {
    if recent != [] && recent[0].timestamp <= later {
      assert recorded[|recorded| - |recent|] == recent[0];
      KeptAfterPrune(recorded, recent[1..], later, later);
    }
  }

  /** Over entries in time order, pruning is filtering. */
  lemma {:induction false} PruneSums(entries: seq<Entry>, cutoff: int)
    requires Ordered(entries)
    ensures Sum(Prune(entries, cutoff)) == SumAfter(entries, cutoff)
  {
    if entries != [] {
      if entries[0].timestamp > cutoff {
        AllLater(entries, cutoff);
      } else {
        PruneSums(entries[1..], cutoff);
      }
    }
  }

  lemma {:induction false} AllLater(entries: seq<Entry>, cutoff: int)
    requires forall entry :: entry in entries ==> entry.timestamp > cutoff
    ensures Sum(entries) == SumAfter(entries, cutoff)
  {
    if entries != [] {
      AllLater(entries[1..], cutoff);
    }
  }

  /** The dropped prefix adds nothing to any later window. */
  lemma {:induction false} KeptSums(recorded: seq<Entry>, recent: seq<Entry>, cutoff: int, later: int)
    requires Kept(recorded, recent, cutoff) && cutoff <= later
    ensures SumAfter(recorded, later) == SumAfter(recent, later)
    decreases |recorded|
  {
    if |recent| < |recorded| {
      assert Kept(recorded[1..], recent, cutoff);
      KeptSums(recorded[1..], recent, cutoff, later);
    }
  }

  lemma OrderedSuffix(recorded: seq<Entry>, recent: seq<Entry>, cutoff: int)
    requires Ordered(recorded) && Kept(recorded, recent, cutoff)
    ensures Ordered(recent)
  {
    var k := |recorded| - |recent|;
    forall i, j | 0 <= i < j < |recent| ensures recent[i].timestamp <= recent[j].timestamp {
      assert recent[i] == recorded[k + i] && recent[j] == recorded[k + j];
    }
  }

  // ---------- the counter and its runs ----------

  datatype Use = Record(amount: int, at: int) | Read(at: int)

  datatype Counter = Counter(recent: seq<Entry>, total: int)

  function After(c: Counter, use: Use, windowSize: int): Counter {
    match use
    case Record(amount, at) => Counter(Prune(c.recent + [Entry(amount, at)], at - windowSize), c.total + amount)
    case Read(at) => Counter(Prune(c.recent, at - windowSize), c.total)
  }

  function Run(uses: seq<Use>, windowSize: int): Counter {
    if uses == [] then Counter([], 0) else After(Run(uses[..|uses| - 1], windowSize), uses[|uses| - 1], windowSize)
  }

  /** The event, byte, document and batch counters, which differ only in the amounts they add. */
  class WindowCounter {
    const windowSize: int
    var recent: seq<Entry>
    var total: int

    function State(): Counter
      reads this
    {
      Counter(recent, total)
    }

    constructor (windowSize: int)
      ensures this.windowSize == windowSize && State() == Run([], windowSize)
    {
      this.windowSize, recent, total := windowSize, [], 0;
    }

    /** Drops everything before the first entry inside the window, or everything. */
    method CleanupOldEntries(now: int)
      modifies this`recent
      ensures recent == Prune(old(recent), now - windowSize)
    {
      var cutoff := now - windowSize;
      for i := 0 to |recent|
        invariant Prune(recent, cutoff) == Prune(recent[i..], cutoff)
        invariant recent == old(recent)
      {
        if recent[i].timestamp > cutoff {
          recent := recent[i..];
          return;
        }
      }
      recent := [];
    }

    method Add(amount: int, now: int)
      modifies this
      ensures State() == After(old(State()), Record(amount, now), windowSize)
    {
      total := total + amount;
      recent := recent + [Entry(amount, now)];
      CleanupOldEntries(now);
    }

    /** The rate per second over the window, as the amount and the length of the window. */
    method GetRate(now: int) returns (amount: int, length: int)
      modifies this
      ensures State() == After(old(State()), Read(now), windowSize)
      ensures amount == Sum(recent) && length == windowSize
    {
      CleanupOldEntries(now);
      amount := 0;
      for i := 0 to |recent|
        invariant amount + Sum(recent[i..]) == Sum(recent)
      {
        amount := amount + recent[i].count;
      }
      length := windowSize;
    }
  }

  /** Everything ever recorded. */
  function History(uses: seq<Use>): seq<Entry> {
    if uses == [] then []
    else
      History(uses[..|uses| - 1])
      + match uses[|uses| - 1] case Record(amount, at) => [Entry(amount, at)] case Read(_) => []
  }

  /**
   * The clock never goes back, up to `now`: every reading is taken under the counter's lock and compared
   * by its monotonic part.
   */
  predicate ClockRuns(uses: seq<Use>, now: int) {
    uses == [] || (uses[|uses| - 1].at <= now && ClockRuns(uses[..|uses| - 1], uses[|uses| - 1].at))
  }

  lemma {:induction false} HistoryTimes(uses: seq<Use>, now: int)
    requires ClockRuns(uses, now)
    ensures Ordered(History(uses)) && forall entry :: entry in History(uses) ==> entry.timestamp <= now
  {
    if uses != [] {
      HistoryTimes(uses[..|uses| - 1], uses[|uses| - 1].at);
    }
  }

  lemma NothingKept(cutoff: int)
    ensures Kept([], [], cutoff)
  {
  }

  lemma KeptLater(recorded: seq<Entry>, recent: seq<Entry>, cutoff: int, later: int)
    requires Kept(recorded, recent, cutoff) && cutoff <= later
    ensures Kept(recorded, recent, later)
  {
  }

  lemma {:induction false} RunKeeps(uses: seq<Use>, windowSize: int, now: int)
    requires windowSize > 0 && ClockRuns(uses, now)
    ensures Kept(History(uses), Run(uses, windowSize).recent, now - windowSize)
    ensures Run(uses, windowSize).total == Sum(History(uses))
  {
    hide Kept, Prune;
    if uses == [] {
      NothingKept(now - windowSize);
    } else {
      var n := |uses| - 1;
      var before, history, cutoff := Run(uses[..n], windowSize).recent, History(uses[..n]), uses[n].at - windowSize;
      RunKeeps(uses[..n], windowSize, uses[n].at);
      match uses[n] {
        case Record(amount, at) =>
          SumAppend(history, Entry(amount, at));
          KeptAfterAdd(history, before, cutoff, Entry(amount, at));
          KeptAfterPrune(history + [Entry(amount, at)], before + [Entry(amount, at)], cutoff, cutoff);
        case Read(_) =>
          assert history + [] == history;
          KeptAfterPrune(history, before, cutoff, cutoff);
      }
      KeptLater(History(uses), Run(uses, windowSize).recent, cutoff, now - windowSize);
    }
  }

  /**
   * With a clock that never goes back, a rate read after any interleaving of records and reads covers
   * exactly what was ever recorded inside the window, and the total covers everything.
   */
  lemma WindowAgreesWithHistory(uses: seq<Use>, windowSize: int, now: int)
    requires windowSize > 0 && ClockRuns(uses, now)
    ensures var c := After(Run(uses, windowSize), Read(now), windowSize);
            Sum(c.recent) == SumAfter(History(uses), now - windowSize) && c.total == Sum(History(uses))
  {
    hide Kept, Ordered, ClockRuns, Prune, Run, History, Sum, SumAfter;
    var recent, history := Run(uses, windowSize).recent, History(uses);
    RunKeeps(uses, windowSize, now);
    HistoryTimes(uses, now);
    OrderedSuffix(history, recent, now - windowSize);
    PruneSums(recent, now - windowSize);
    KeptSums(history, recent, now - windowSize, now - windowSize);
  }
}
