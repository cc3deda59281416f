/** The deduplicating event buffer: a TTL map of seen event IDs and a ring of accepted events. */
module EventBuffer {
  import opened Common

  /** A change event; `id` is the identifier the buffer derives from its content. */
  datatype ChangeEvent = ChangeEvent(id: string, timestamp: int)

  /** An accepted event and the time recorded for it. */
  datatype Acceptance = Acceptance(event: ChangeEvent, at: int)

  /** The specification: the same ID was accepted less than the TTL before `now`. */
  ghost predicate RecentlyAccepted(history: seq<Acceptance>, id: string, now: int, ttl: int) {
    exists i :: 0 <= i < |history| && history[i].event.id == id && now - history[i].at < ttl
  }

  /** Accepted times never run backwards, and none lies after `now`. */
  ghost predicate Ordered(history: seq<Acceptance>, now: int) {
    && (forall i, j :: 0 <= i < j < |history| ==> history[i].at <= history[j].at)
    && (forall i :: 0 <= i < |history| ==> history[i].at <= now)
  }

  /** The map records each ID's last acceptance, except for some that have expired by `now`. */
  ghost predicate Tracks(seen: map<string, int>, history: seq<Acceptance>, now: int, ttl: int) {
    && (forall id :: id in seen ==> exists i :: 0 <= i < |history| && history[i].event.id == id && history[i].at == seen[id])
    && (forall i :: 0 <= i < |history| ==>
          || (history[i].event.id in seen && history[i].at <= seen[history[i].event.id])
          || now - history[i].at >= ttl)
  }

  /** The last `n` elements. */
  function Last<T>(s: seq<T>, n: nat): seq<T> {
    if |s| <= n then s else s[|s| - n..]
  }

  function Events(history: seq<Acceptance>): seq<ChangeEvent> {
    seq(|history|, i requires 0 <= i < |history| => history[i].event)
  }

  function Recent(events: seq<ChangeEvent>, cutoff: int): seq<ChangeEvent> {
    if events == [] then []
    else Recent(events[..|events| - 1], cutoff) + if events[|events| - 1].timestamp > cutoff then [events[|events| - 1]] else []
  }

  function RecentSlots(slots: seq<Option<ChangeEvent>>, cutoff: int): seq<ChangeEvent> {
    if slots == [] then []
    else
      var slot := slots[|slots| - 1];
      RecentSlots(slots[..|slots| - 1], cutoff) + if slot.Some? && slot.value.timestamp > cutoff then [slot.value] else []
  }

  /** The ring, read from its oldest slot: unused slots, then the last accepted events in order. */
  function Slots(events: seq<ChangeEvent>, size: nat): seq<Option<ChangeEvent>> {
    var kept := Last(events, size);
    Filled(size - |kept|, kept)
  }

  function Filled(unused: nat, kept: seq<ChangeEvent>): seq<Option<ChangeEvent>> {
    seq(unused, i => None) + seq(|kept|, i requires 0 <= i < |kept| => Some(kept[i]))
  }

  lemma {:induction false} RecentOfSlots(unused: nat, kept: seq<ChangeEvent>, cutoff: int)
    ensures RecentSlots(Filled(unused, kept), cutoff) == Recent(kept, cutoff)
    decreases unused + |kept|
  {
    var all := Filled(unused, kept);
    if kept != [] {
      assert all[..|all| - 1] == Filled(unused, kept[..|kept| - 1]);
      RecentOfSlots(unused, kept[..|kept| - 1], cutoff);
    } else if unused > 0 {
      assert all[..|all| - 1] == Filled(unused - 1, kept);
      RecentOfSlots(unused - 1, kept, cutoff);
    }
  }

  class EventBuffer {
    const maxSize: nat
    const ttl: int
    var slots: array<Option<ChangeEvent>>
    var position: nat
    var seenEvents: map<string, int>
    ghost var history: seq<Acceptance>
    ghost var clock: int

    ghost predicate Valid()
      reads this, slots
    {
      && 0 < ttl && 0 < maxSize == slots.Length && position < maxSize
      && Ring() == Slots(Events(history), maxSize)
      && Ordered(history, clock)
      && Tracks(seenEvents, history, clock, ttl)
    }

    constructor (size: int, timeToLive: int, now: int)
      ensures Valid() && fresh(slots)
      ensures history == [] && clock == now
      ensures maxSize == (if size <= 0 then 10000 else size)
      ensures ttl == if timeToLive <= 0 then 300_000_000_000 else timeToLive
    {
      maxSize := if size <= 0 then 10000 else size;
      ttl := if timeToLive <= 0 then 300_000_000_000 else timeToLive;
      slots := new Option<ChangeEvent>[if size <= 0 then 10000 else size](_ => None);
      position, seenEvents, history, clock := 0, map[], [], now;
    }

    /** The ring, read from its oldest slot. */
    ghost function Ring(): seq<Option<ChangeEvent>>
      requires position <= slots.Length
      reads this, slots
    {
      slots[position..] + slots[..position]
    }

    /** Overwrites the oldest slot and moves on to the next. */
    method Store(event: ChangeEvent)
      requires 0 < maxSize == slots.Length && position < maxSize
      modifies this`position, slots
      ensures position < maxSize && Ring() == old(Ring())[1..] + [Some(event)]
    {
      ghost var before := slots[..];
      slots[position] := Some(event);
      assert slots[..] == before[position := Some(event)];
      Rotated(before, slots[..], position, Some(event));
      position := if position + 1 == maxSize then 0 else position + 1;
      assert Ring() == slots[..][position..] + slots[..][..position];
      assert old(Ring()) == before[old(position)..] + before[..old(position)];
    }

    /** The clock is read once to look the event up and once more to record it. */
    method AddEvent(event: ChangeEvent, now: int, later: int) returns (added: bool)
      requires Valid() && clock <= now <= later
      modifies this, slots
      ensures Valid() && slots == old(slots) && clock == later
      ensures added <==> !RecentlyAccepted(old(history), event.id, now, ttl)
      ensures history == if added then old(history) + [Acceptance(event, later)] else old(history)
    {
      if event.id in seenEvents {
        LatestIsSeen(seenEvents, history, clock, ttl, event.id);
        if now - seenEvents[event.id] < ttl {
          clock := later;
          return false;
        }
      }
      assert !RecentlyAccepted(history, event.id, now, ttl);
      AppendSlots(Events(history), event, maxSize);
      AppendTracks(seenEvents, history, clock, ttl, event, now, later);
      assert Events(history + [Acceptance(event, later)]) == Events(history) + [event];
      seenEvents := seenEvents[event.id := later];
      Store(event);
      history := history + [Acceptance(event, later)];
      clock := later;
      added := true;
    }

    /** The events of the ring, from its oldest slot on, that are newer than the cutoff. */
    method ReadRing(cutoff: int) returns (events: seq<ChangeEvent>)
      requires 0 < maxSize == slots.Length && position < maxSize
      ensures events == RecentSlots(Ring(), cutoff)
    {
      events := [];
      ghost var ring := Ring();
      for i := 0 to maxSize
        invariant events == RecentSlots(ring[..i], cutoff)
      {
        var slot := if position + i < maxSize then slots[position + i] else slots[position + i - maxSize];
        assert slot == ring[i];
        assert ring[..i + 1][..i] == ring[..i];
        if slot.Some? && slot.value.timestamp > cutoff {
          events := events + [slot.value];
        }
      }
      assert ring[..maxSize] == ring;
    }

    /** The accepted events still in the ring whose own timestamp lies after the cutoff, oldest first. */
    method GetRecentEvents(since: int, now: int) returns (events: seq<ChangeEvent>)
      requires Valid()
      ensures events == Recent(Last(Events(history), maxSize), now - since)
    {
      hide Tracks, RecentSlots, Recent;
      events := ReadRing(now - since);
      ghost var kept := Last(Events(history), maxSize);
      RecentOfSlots(maxSize - |kept|, kept, now - since);
    }

    /** Deletes the expired entries one by one. */
    method DropExpired(now: int)
      modifies this`seenEvents
      ensures seenEvents == Unexpired(old(seenEvents), now, ttl)
    {
      var all, ids := seenEvents, seenEvents.Keys;
      while ids != {}
        invariant ids <= all.Keys
        invariant seenEvents == Unexpired(all, now, ttl) + (map id | id in ids :: all[id])
      {
        var id :| id in ids;
        if now - all[id] > ttl {
          seenEvents := seenEvents - {id};
        }
        ids := ids - {id};
      }
    }

    /** One tick of the cleanup loop. */
    method CleanupExpiredEvents(now: int)
      requires Valid() && clock <= now
      modifies this`seenEvents, this`clock
      ensures Valid() && clock == now
      ensures seenEvents == Unexpired(old(seenEvents), now, ttl)
    {
      UnexpiredTracks(seenEvents, history, clock, now, ttl);
      DropExpired(now);
      clock := now;
    }
  }

  function Unexpired(seen: map<string, int>, now: int, ttl: int): map<string, int> {
    map id | id in seen && !(now - seen[id] > ttl) :: seen[id]
  }

  lemma UnexpiredTracks(seen: map<string, int>, history: seq<Acceptance>, clock: int, now: int, ttl: int)
    requires Tracks(seen, history, clock, ttl) && Ordered(history, clock) && clock <= now
    ensures Tracks(Unexpired(seen, now, ttl), history, now, ttl)
    ensures Ordered(history, now)
  {
  }

  lemma AppendSlots(events: seq<ChangeEvent>, event: ChangeEvent, size: nat)
    requires size > 0
    ensures Slots(events + [event], size) == Slots(events, size)[1..] + [Some(event)]
  {
  }

  /** Overwriting the oldest slot and moving on drops the first element and appends the new one. */
  lemma Rotated<T>(before: seq<T>, after: seq<T>, position: nat, x: T)
    requires position < |before| && after == before[position := x]
    ensures var next := if position + 1 == |before| then 0 else position + 1;
            after[next..] + after[..next] == (before[position..] + before[..position])[1..] + [x]
  {
  }

  lemma LatestIsSeen(seen: map<string, int>, history: seq<Acceptance>, clock: int, ttl: int, id: string)
    requires Tracks(seen, history, clock, ttl) && id in seen
    ensures forall now: int :: now >= clock ==> (RecentlyAccepted(history, id, now, ttl) <==> now - seen[id] < ttl)
  {
    var i :| 0 <= i < |history| && history[i].event.id == id && history[i].at == seen[id];
    forall now: int | now >= clock && RecentlyAccepted(history, id, now, ttl) ensures now - seen[id] < ttl {
      var j :| 0 <= j < |history| && history[j].event.id == id && now - history[j].at < ttl;
    }
  }

  lemma AppendTracks(seen: map<string, int>, history: seq<Acceptance>, clock: int, ttl: int, event: ChangeEvent, now: int, later: int)
    requires Tracks(seen, history, clock, ttl) && Ordered(history, clock) && clock <= now <= later
    ensures Tracks(seen[event.id := later], history + [Acceptance(event, later)], later, ttl)
    ensures Ordered(history + [Acceptance(event, later)], later)
  {
    var more := history + [Acceptance(event, later)];
    assert more[|history|].event.id == event.id && more[|history|].at == later;
    forall id | id in seen && id != event.id
      ensures exists i :: 0 <= i < |more| && more[i].event.id == id && more[i].at == seen[id]
    {
      var i :| 0 <= i < |history| && history[i].event.id == id && history[i].at == seen[id];
      assert more[i].event.id == id;
    }
  }

  // ---------- cleanup is invisible ----------

  datatype Operation = Add(event: ChangeEvent, now: int, later: int) | Cleanup(now: int)

  predicate Duplicate(seen: map<string, int>, id: string, now: int, ttl: int) {
    id in seen && now - seen[id] < ttl
  }

  function Perform(seen: map<string, int>, op: Operation, ttl: int): map<string, int> {
    match op
    case Add(event, now, later) => if Duplicate(seen, event.id, now, ttl) then seen else seen[event.id := later]
    case Cleanup(now) => Unexpired(seen, now, ttl)
  }

  /** The TTL map after a run of operations, as the buffer keeps it. */
  function SeenAfter(ops: seq<Operation>, ttl: int): map<string, int> {
    if ops == [] then map[] else Perform(SeenAfter(ops[..|ops| - 1], ttl), ops[|ops| - 1], ttl)
  }

  /** The answers of the additions of a run. */
  function Answers(ops: seq<Operation>, ttl: int): seq<bool> {
    if ops == [] then []
    else
      Answers(ops[..|ops| - 1], ttl)
      + match ops[|ops| - 1]
        case Add(event, now, _) => [!Duplicate(SeenAfter(ops[..|ops| - 1], ttl), event.id, now, ttl)]
        case Cleanup(_) => []
  }

  /** The events a run accepts, in order. */
  function AcceptedEvents(ops: seq<Operation>, ttl: int): seq<ChangeEvent> {
    if ops == [] then []
    else
      AcceptedEvents(ops[..|ops| - 1], ttl)
      + match ops[|ops| - 1]
        case Add(event, now, _) =>
          if Duplicate(SeenAfter(ops[..|ops| - 1], ttl), event.id, now, ttl) then [] else [event]
        case Cleanup(_) => []
  }

  function WithoutCleanups(ops: seq<Operation>): seq<Operation> {
    if ops == [] then []
    else WithoutCleanups(ops[..|ops| - 1]) + if ops[|ops| - 1].Add? then [ops[|ops| - 1]] else []
  }

  function EndOf(op: Operation): int {
    if op.Add? then op.later else op.now
  }

  /** The clock never runs backwards over the run. */
  ghost predicate ClockOrdered(ops: seq<Operation>) {
    && (forall i :: 0 <= i < |ops| ==> ops[i].now <= EndOf(ops[i]))
    && (forall i, j :: 0 <= i < j < |ops| ==> EndOf(ops[i]) <= ops[j].now)
  }

  /** `a` is `b` without some entries that have expired by time `t`. */
  ghost predicate ExpiredShort(a: map<string, int>, b: map<string, int>, t: int, ttl: int) {
    && (forall id :: id in a ==> id in b && a[id] == b[id])
    && (forall id :: id in b && id !in a ==> t - b[id] >= ttl)
  }

  lemma ExpiredShortStep(a: map<string, int>, b: map<string, int>, t: int, op: Operation, ttl: int)
    requires ExpiredShort(a, b, t, ttl) && t <= op.now <= EndOf(op)
    ensures op.Add? ==> (Duplicate(a, op.event.id, op.now, ttl) <==> Duplicate(b, op.event.id, op.now, ttl))
    ensures ExpiredShort(Perform(a, op, ttl), if op.Add? then Perform(b, op, ttl) else b, EndOf(op), ttl)
  {
  }

  lemma {:induction false} WithoutCleanupsStep(ops: seq<Operation>, ttl: int)
    requires ops != []
    ensures var init, op := ops[..|ops| - 1], ops[|ops| - 1];
            var rest := WithoutCleanups(init);
            && SeenAfter(WithoutCleanups(ops), ttl) ==
               (if op.Add? then Perform(SeenAfter(rest, ttl), op, ttl) else SeenAfter(rest, ttl))
            && Answers(WithoutCleanups(ops), ttl) ==
               Answers(rest, ttl) + (if op.Add? then [!Duplicate(SeenAfter(rest, ttl), op.event.id, op.now, ttl)] else [])
            && AcceptedEvents(WithoutCleanups(ops), ttl) ==
               AcceptedEvents(rest, ttl)
               + if op.Add? && !Duplicate(SeenAfter(rest, ttl), op.event.id, op.now, ttl) then [op.event] else []
  {
    var op, rest := ops[|ops| - 1], WithoutCleanups(ops[..|ops| - 1]);
    if op.Add? {
      var more := rest + [op];
      assert more[..|more| - 1] == rest;
    } else {
      assert rest + [] == rest && Answers(rest, ttl) + [] == Answers(rest, ttl);
      assert AcceptedEvents(rest, ttl) + [] == AcceptedEvents(rest, ttl);
    }
  }

  /** The cleaned map lacks only entries that have expired by the end of the run. */
  lemma {:induction false} CleanedMapIsExpiredShort(ops: seq<Operation>, ttl: int)
    requires ClockOrdered(ops)
    ensures ops != [] ==>
              ExpiredShort(SeenAfter(ops, ttl), SeenAfter(WithoutCleanups(ops), ttl), EndOf(ops[|ops| - 1]), ttl)
    ensures Answers(ops, ttl) == Answers(WithoutCleanups(ops), ttl)
    ensures AcceptedEvents(ops, ttl) == AcceptedEvents(WithoutCleanups(ops), ttl)
  {
    if ops != [] {
      var init, op := ops[..|ops| - 1], ops[|ops| - 1];
      CleanedMapIsExpiredShort(init, ttl);
      WithoutCleanupsStep(ops, ttl);
      var t := if init == [] then op.now else EndOf(init[|init| - 1]);
      ExpiredShortStep(SeenAfter(init, ttl), SeenAfter(WithoutCleanups(init), ttl), t, op, ttl);
    }
  }

  /** Interleaving cleanups anywhere in a run never changes the answer to any addition, nor what is accepted. */
  lemma CleanupIsInvisible(ops: seq<Operation>, ttl: int)
    requires ClockOrdered(ops)
    ensures Answers(ops, ttl) == Answers(WithoutCleanups(ops), ttl)
    ensures AcceptedEvents(ops, ttl) == AcceptedEvents(WithoutCleanups(ops), ttl)
  {
    CleanedMapIsExpiredShort(ops, ttl);
  }

  // ---------- what is accepted ----------

  /** The acceptances of a run by the specification alone: what was not accepted less than the TTL before. */
  ghost function History(ops: seq<Operation>, ttl: int): seq<Acceptance> {
    if ops == [] then []
    else
      var before := History(ops[..|ops| - 1], ttl);
      match ops[|ops| - 1]
      case Add(event, now, later) =>
        if RecentlyAccepted(before, event.id, now, ttl) then before else before + [Acceptance(event, later)]
      case Cleanup(_) => before
  }

  /** The specification's answers to the additions of a run. */
  ghost function SpecifiedAnswers(ops: seq<Operation>, ttl: int): seq<bool> {
    if ops == [] then []
    else
      SpecifiedAnswers(ops[..|ops| - 1], ttl)
      + match ops[|ops| - 1]
        case Add(event, now, _) => [!RecentlyAccepted(History(ops[..|ops| - 1], ttl), event.id, now, ttl)]
        case Cleanup(_) => []
  }

  lemma {:induction false} MapFollowsHistory(ops: seq<Operation>, ttl: int, clock: int)
    requires ClockOrdered(ops) && (ops != [] ==> clock == EndOf(ops[|ops| - 1]))
    ensures Ordered(History(ops, ttl), clock) && Tracks(SeenAfter(ops, ttl), History(ops, ttl), clock, ttl)
    ensures AcceptedEvents(ops, ttl) == Events(History(ops, ttl))
    ensures Answers(ops, ttl) == SpecifiedAnswers(ops, ttl)
    decreases |ops|
  {
    if ops != [] {
      hide Tracks, Ordered, RecentlyAccepted, Duplicate, Unexpired, Perform, Events;
      var init, op := ops[..|ops| - 1], ops[|ops| - 1];
      var before := if init == [] then op.now else EndOf(init[|init| - 1]);
      MapFollowsHistory(init, ttl, before);
      StepFollowsHistory(SeenAfter(init, ttl), History(init, ttl), before, op, ttl);
      assert AcceptedEvents(init, ttl) + [] == AcceptedEvents(init, ttl);
      if op.Add? {
        OneMoreEvent(History(init, ttl), op.event, op.later);
      }
    } else {
      assert Events([]) == [];
    }
  }

  lemma OneMoreEvent(history: seq<Acceptance>, event: ChangeEvent, at: int)
    ensures Events(history + [Acceptance(event, at)]) == Events(history) + [event]
  {
  }

  lemma StepFollowsHistory(seen: map<string, int>, history: seq<Acceptance>, clock: int, op: Operation, ttl: int)
    requires Tracks(seen, history, clock, ttl) && Ordered(history, clock) && clock <= op.now <= EndOf(op)
    ensures op.Add? ==> (Duplicate(seen, op.event.id, op.now, ttl) <==> RecentlyAccepted(history, op.event.id, op.now, ttl))
    ensures var after := if op.Add? && !RecentlyAccepted(history, op.event.id, op.now, ttl)
                         then history + [Acceptance(op.event, op.later)] else history;
            Tracks(Perform(seen, op, ttl), after, EndOf(op), ttl) && Ordered(after, EndOf(op))
  {
    match op
    case Add(event, now, later) =>
      if event.id in seen {
        LatestIsSeen(seen, history, clock, ttl, event.id);
      }
      if !RecentlyAccepted(history, event.id, now, ttl) {
        AppendTracks(seen, history, clock, ttl, event, now, later);
      }
    case Cleanup(now) =>
      UnexpiredTracks(seen, history, clock, now, ttl);
  }

  /**
   * Deduplication is what it is meant to be: over any run of additions and cleanups an event is accepted
   * exactly if no event with its ID was accepted less than the lifetime before.
   */
  lemma AcceptsWhatIsNotRecent(ops: seq<Operation>, ttl: int)
    requires ClockOrdered(ops)
    ensures AcceptedEvents(ops, ttl) == Events(History(ops, ttl))
    ensures Answers(ops, ttl) == SpecifiedAnswers(ops, ttl)
  {
    MapFollowsHistory(ops, ttl, if ops == [] then 0 else EndOf(ops[|ops| - 1]));
  }
}
