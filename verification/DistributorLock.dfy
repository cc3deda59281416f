/** The calls on one collection distributor and the read-write lock they share. */
module DistributorLock {
  import opened Common
  import opened Distribution

  datatype Op =
    | RegisterVM(id: Name, maxCollections: int)
    | RegisterCollections(keys: set<Name>)
    | AutoDistribute
    | GetDistributionStatus

  /**
   * A writer announces itself, which keeps new readers out, and goes in when the readers inside have left.
   * A registration that has entered its collections calls `AutoDistribute`, which asks for the lock again.
   */
  datatype Phase = Waiting | Announced | Inside | Reentering | Returned

  datatype Call = Call(op: Op, phase: Phase)

  datatype Data = Data(vms: VMs, registry: Registry, counter: nat)

  /** Calls are numbered in the order they arrive; `writer` is the one that is announced or inside. */
  datatype State = State(calls: seq<Call>, writer: Option<nat>, readers: set<nat>, data: Data)

  const START := State([], None, {}, Data(map[], map[], 0))

  predicate LockFree(s: State) {
    s.writer.None? && s.readers == {}
  }

  predicate InPhase(s: State, c: nat, phase: Phase) {
    c < |s.calls| && s.calls[c].phase == phase
  }

  function Moved(s: State, c: nat, phase: Phase): State
    requires c < |s.calls|
  {
    s.(calls := s.calls[c := s.calls[c].(phase := phase)])
  }

  function Entered(s: State, op: Op): State {
    s.(calls := s.calls + [Call(op, Waiting)])
  }

  /** Registering collections overwrites their entries with unassigned ones. */
  function Registered(registry: Registry, keys: set<Name>): Registry {
    registry + map key | key in keys :: CollectionInfo(UNASSIGNED, true)
  }

  /** What the body of `AutoDistribute` makes of the data. */
  ghost predicate Distributes(mode: Mode, d: Data, d': Data) {
    exists available, colls ::
      && ListsHealthy(d.vms, available) && ListsUnassigned(d.registry, colls)
      && d' == if available == [] then d else
                 var choices := Choices(mode, d.vms, available, colls, d.counter);
                 Data(Hand(d.vms, colls, choices), RegistryAfter(d.registry, colls, choices), d.counter + |colls|)
  }

  /** A reader gets in, or a writer announces itself; neither can while a writer is announced or inside. */
  predicate Acquires(s: State, c: nat, t: State) {
    && InPhase(s, c, Waiting) && s.writer.None?
    && t == if s.calls[c].op.GetDistributionStatus? then Moved(s, c, Inside).(readers := s.readers + {c})
            else Moved(s, c, Announced).(writer := Some(c))
  }

  predicate GoesIn(s: State, c: nat, t: State) {
    InPhase(s, c, Announced) && s.readers == {} && t == Moved(s, c, Inside)
  }

  /** A call inside does its work; all but a registration then release the lock and return. */
  ghost predicate Works(mode: Mode, s: State, c: nat, t: State) {
    && InPhase(s, c, Inside)
    && match s.calls[c].op
       case RegisterVM(id, maxCollections) =>
         t == Moved(s, c, Returned).(writer := None, data := s.data.(vms := s.data.vms[id := VM(maxCollections, {}, Healthy)]))
       case RegisterCollections(keys) =>
         t == Moved(s, c, Reentering).(data := s.data.(registry := Registered(s.data.registry, keys)))
       case AutoDistribute =>
         Distributes(mode, s.data, t.data) && t == Moved(s, c, Returned).(writer := None, data := t.data)
       case GetDistributionStatus =>
         t == Moved(s, c, Returned).(readers := s.readers - {c})
  }

  /** A registration gets the lock the second time, distributes and returns. */
  ghost predicate Redistributes(mode: Mode, s: State, c: nat, t: State) {
    && InPhase(s, c, Reentering) && LockFree(s)
    && Distributes(mode, s.data, t.data) && t == Moved(s, c, Returned).(data := t.data)
  }

  ghost predicate Moves(mode: Mode, s: State, c: nat, t: State) {
    Acquires(s, c, t) || GoesIn(s, c, t) || Works(mode, s, c, t) || Redistributes(mode, s, c, t)
  }

  ghost predicate Next(mode: Mode, s: State, t: State) {
    || (exists op :: t == Entered(s, op))
    || exists c: nat :: Moves(mode, s, c, t)
  }

  ghost predicate IsRun(mode: Mode, run: seq<State>) {
    run != [] && forall i :: 0 <= i < |run| - 1 ==> Next(mode, run[i], run[i + 1])
  }

  ghost predicate Reachable(mode: Mode, s: State) {
    exists run :: IsRun(mode, run) && run[0] == START && run[|run| - 1] == s
  }

  // ---------- what every step keeps ----------

  predicate HoldsAlone(call: Call) {
    !call.op.GetDistributionStatus? && (call.phase.Announced? || call.phase.Inside? || call.phase.Reentering?)
  }

  predicate HoldsShared(call: Call) {
    call.op.GetDistributionStatus? && call.phase.Inside?
  }

  predicate Registering(s: State) {
    s.writer.Some? && s.writer.value < |s.calls| && s.calls[s.writer.value].op.RegisterCollections?
  }

  /**
   * The lock's books agree with the calls, no registration has returned, nothing is registered unless a
   * registration holds the lock, and no VM holds a collection.
   */
  ghost predicate Inv(s: State) {
    && (s.writer.Some? ==> s.writer.value < |s.calls| && (s.calls[s.writer.value].phase.Announced? || s.readers == {}))
    && (forall c :: c in s.readers ==> c < |s.calls|)
    && (forall c :: 0 <= c < |s.calls| ==>
          && (HoldsAlone(s.calls[c]) <==> s.writer == Some(c))
          && (HoldsShared(s.calls[c]) <==> c in s.readers)
          && (s.calls[c].phase.Announced? ==> s.writer == Some(c))
          && (s.calls[c].phase.Reentering? ==> s.calls[c].op.RegisterCollections?)
          && (s.calls[c].phase.Returned? ==> !s.calls[c].op.RegisterCollections?))
    && (!Registering(s) ==> s.data.registry == map[])
    && (forall key :: key in s.data.registry ==> s.data.registry[key].assignedTo == UNASSIGNED)
    && (forall id :: id in s.data.vms ==> s.data.vms[id].holding == {})
  }

  /**
   * From `s`, where a registration is announced or inside, to `t` the lock was not handed on: no waiting call
   * moved, VMs and counter stood still, and so did all data once the registration had asked a second time.
   */
  ghost predicate Frozen(s: State, t: State)
    requires Registering(s)
  {
    var r := s.writer.value;
    && t.writer == s.writer && t.readers <= s.readers && |s.calls| <= |t.calls|
    && (forall c :: 0 <= c < |s.calls| && s.calls[c].phase.Waiting? ==> t.calls[c] == s.calls[c])
    && (forall c :: |s.calls| <= c < |t.calls| ==> t.calls[c].phase.Waiting?)
    && t.calls[r].op == s.calls[r].op
    && t.data.vms == s.data.vms && t.data.counter == s.data.counter
    && (s.calls[r].phase.Reentering? ==> t.data == s.data && t.calls[r] == s.calls[r])
  }

  lemma HasElement(colls: seq<Name>)
    ensures colls == [] || exists key :: key in colls
  {
    if colls != [] {
      assert colls[0] in colls;
    }
  }

  lemma NothingToDistribute(mode: Mode, d: Data, d': Data)
    requires Distributes(mode, d, d') && d.registry == map[]
    ensures d' == d
  {
    hide Choices;
    var available, colls :|
      && ListsHealthy(d.vms, available) && ListsUnassigned(d.registry, colls)
      && d' == if available == [] then d else
                 var choices := Choices(mode, d.vms, available, colls, d.counter);
                 Data(Hand(d.vms, colls, choices), RegistryAfter(d.registry, colls, choices), d.counter + |colls|);
    HasElement(colls);
  }

  /** A registration that holds the lock never gets it the second time. */
  lemma NoSecondLock(mode: Mode, s: State, c: nat, t: State)
    requires Inv(s)
    ensures !Redistributes(mode, s, c, t)
  {
    if InPhase(s, c, Reentering) {
      assert HoldsAlone(s.calls[c]);
    }
  }

  lemma ArrivalKeepsInv(s: State, op: Op)
    requires Inv(s)
    ensures Inv(Entered(s, op))
    ensures Registering(s) ==> Registering(Entered(s, op)) && Frozen(s, Entered(s, op))
  {
  }

  lemma EntryKeepsInv(s: State, c: nat, t: State)
    requires Inv(s) && (Acquires(s, c, t) || GoesIn(s, c, t))
    ensures Inv(t)
    ensures Registering(s) ==> Registering(t) && Frozen(s, t)
  {
  }

  lemma WorkKeepsInv(mode: Mode, s: State, c: nat, t: State)
    requires Inv(s) && Works(mode, s, c, t)
    ensures Inv(t)
    ensures Registering(s) ==> Registering(t) && Frozen(s, t)
  {
    hide Distributes;
    assert HoldsAlone(s.calls[c]) || HoldsShared(s.calls[c]);
    if s.calls[c].op.AutoDistribute? {
      NothingToDistribute(mode, s.data, t.data);
    }
  }

  lemma StepKeepsInv(mode: Mode, s: State, t: State)
    requires Inv(s) && Next(mode, s, t)
    ensures Inv(t)
    ensures Registering(s) ==> Registering(t) && Frozen(s, t)
  {
    hide Works, Redistributes, Acquires, GoesIn, Inv, Frozen;
    if op :| t == Entered(s, op) {
      ArrivalKeepsInv(s, op);
    } else {
      var c: nat :| Moves(mode, s, c, t);
      NoSecondLock(mode, s, c, t);
      if Works(mode, s, c, t) {
        WorkKeepsInv(mode, s, c, t);
      } else {
        EntryKeepsInv(s, c, t);
      }
    }
  }

  lemma FrozenAtFirst(s: State)
    requires Inv(s)
    ensures Registering(s) ==> Frozen(s, s)
  {
  }

  lemma FrozenOn(s: State, t: State, u: State)
    requires Registering(s) && Registering(t) && Frozen(s, t) && Frozen(t, u)
    ensures Frozen(s, u)
  {
  }

  lemma {:induction false} RunKeepsInv(mode: Mode, run: seq<State>, i: nat, j: nat)
    requires IsRun(mode, run) && i <= j < |run| && Inv(run[i])
    ensures Inv(run[j])
    ensures Registering(run[i]) ==> Registering(run[j]) && Frozen(run[i], run[j])
    decreases j
  {
    hide Next, Frozen;
    if i == j {
      FrozenAtFirst(run[i]);
    } else {
      RunKeepsInv(mode, run, i, j - 1);
      StepKeepsInv(mode, run[j - 1], run[j]);
      if Registering(run[i]) {
        FrozenOn(run[i], run[j - 1], run[j]);
      }
    }
  }

  lemma ReachableKeepsInv(mode: Mode, s: State)
    requires Reachable(mode, s)
    ensures Inv(s)
  {
    var run :| IsRun(mode, run) && run[0] == START && run[|run| - 1] == s;
    RunKeepsInv(mode, run, 0, |run| - 1);
  }

  /**
   * Whatever calls are made, in whatever order they get the lock, no VM ever holds a collection: every
   * distribution that takes place finds nothing registered and changes nothing.
   */
  lemma NothingIsEverDistributed(mode: Mode, s: State, c: nat, t: State)
    requires Reachable(mode, s)
    ensures forall id :: id in s.data.vms ==> s.data.vms[id].holding == {}
    ensures forall key :: key in s.data.registry ==> s.data.registry[key].assignedTo == UNASSIGNED
    ensures Works(mode, s, c, t) && s.calls[c].op.AutoDistribute? ==> t.data == s.data && s.data.registry == map[]
  {
    hide Distributes;
    ReachableKeepsInv(mode, s);
    if Works(mode, s, c, t) && s.calls[c].op.AutoDistribute? {
      assert HoldsAlone(s.calls[c]);
      NothingToDistribute(mode, s.data, t.data);
    }
  }

  // ---------- which calls return ----------

  ghost predicate Leads(mode: Mode, s: State, t: State) {
    exists run :: IsRun(mode, run) && run[0] == s && run[|run| - 1] == t
  }

  lemma LeadsItself(mode: Mode, s: State)
    ensures Leads(mode, s, s)
  {
    assert IsRun(mode, [s]);
  }

  lemma LeadsFurther(mode: Mode, s: State, t: State, u: State)
    requires Leads(mode, s, t) && Leads(mode, t, u)
    ensures Leads(mode, s, u)
  {
    hide Next;
    var first :| IsRun(mode, first) && first[0] == s && first[|first| - 1] == t;
    var second :| IsRun(mode, second) && second[0] == t && second[|second| - 1] == u;
    var run := first + second[1..];
    assert IsRun(mode, run) by {
      forall i | 0 <= i < |run| - 1 ensures Next(mode, run[i], run[i + 1]) {
        if i >= |first| - 1 {
          assert run[i] == second[i - |first| + 1] && run[i + 1] == second[i - |first| + 2];
        }
      }
    }
  }

  lemma LeadsOn(mode: Mode, s: State, t: State, u: State)
    requires Next(mode, s, t) && Leads(mode, t, u)
    ensures Leads(mode, s, u)
  {
    var run :| IsRun(mode, run) && run[0] == t && run[|run| - 1] == u;
    assert IsRun(mode, [s] + run);
  }

  /** A call that does not register collections can do its work once it is inside. */
  function Finished(s: State, c: nat): State
    requires InPhase(s, c, Inside) && !s.calls[c].op.RegisterCollections?
  {
    match s.calls[c].op
    case RegisterVM(id, maxCollections) =>
      Moved(s, c, Returned).(writer := None, data := s.data.(vms := s.data.vms[id := VM(maxCollections, {}, Healthy)]))
    case AutoDistribute => Moved(s, c, Returned).(writer := None)
    case GetDistributionStatus => Moved(s, c, Returned).(readers := s.readers - {c})
  }

  lemma {:induction false} HealthyListExists(vms: VMs, ids: set<Name>) returns (available: seq<Name>)
    requires ids <= vms.Keys
    ensures Distinct(available)
    ensures forall id :: id in available <==>
      id in ids && vms[id].status.Healthy? && |vms[id].holding| < vms[id].maxCollections
  {
    if ids == {} {
      available := [];
    } else {
      var id :| id in ids;
      available := HealthyListExists(vms, ids - {id});
      if vms[id].status.Healthy? && |vms[id].holding| < vms[id].maxCollections {
        available := available + [id];
      }
    }
  }

  /** With nothing registered `AutoDistribute` can do its work, which leaves everything as it is. */
  lemma NothingRegistered(mode: Mode, d: Data)
    requires d.registry == map[]
    ensures Distributes(mode, d, d)
  {
    var available := HealthyListExists(d.vms, d.vms.Keys);
    assert ListsHealthy(d.vms, available);
    assert ListsUnassigned(d.registry, []);
  }

  lemma CanFinish(mode: Mode, s: State, c: nat)
    requires Inv(s) && InPhase(s, c, Inside) && !s.calls[c].op.RegisterCollections?
    requires s.calls[c].op.GetDistributionStatus? || !Registering(s)
    ensures Next(mode, s, Finished(s, c)) && Inv(Finished(s, c))
    ensures Registering(Finished(s, c)) <==> Registering(s)
  {
    hide Distributes, Redistributes;
    assert HoldsAlone(s.calls[c]) || HoldsShared(s.calls[c]);
    if s.calls[c].op.AutoDistribute? {
      NothingRegistered(mode, s.data);
    }
    assert Works(mode, s, c, Finished(s, c));
    assert Moves(mode, s, c, Finished(s, c));
  }

  lemma CanGoIn(mode: Mode, s: State, c: nat)
    requires Inv(s) && InPhase(s, c, Announced) && s.readers == {}
    ensures Next(mode, s, Moved(s, c, Inside)) && Inv(Moved(s, c, Inside))
    ensures Registering(Moved(s, c, Inside)) <==> Registering(s)
  {
    hide Works, Redistributes;
    assert GoesIn(s, c, Moved(s, c, Inside));
    assert Moves(mode, s, c, Moved(s, c, Inside));
    EntryKeepsInv(s, c, Moved(s, c, Inside));
  }

  /** Unless a registration is announced or inside, the calls inside can finish one by one until the lock is free. */
  lemma {:induction false} LockComesFree(mode: Mode, s: State) returns (t: State)
    requires Inv(s) && !Registering(s)
    ensures Inv(t) && LockFree(t) && Leads(mode, s, t)
    ensures |t.calls| == |s.calls| && forall c :: 0 <= c < |s.calls| && s.calls[c].phase.Waiting? ==> t.calls[c] == s.calls[c]
    decreases |s.readers| + if s.writer.None? then 0 else if s.calls[s.writer.value].phase.Announced? then 2 else 1
  {
    hide Works, Next, Leads;
    if s.readers != {} {
      var c :| c in s.readers;
      CanFinish(mode, s, c);
      t := LockComesFree(mode, Finished(s, c));
      LeadsOn(mode, s, Finished(s, c), t);
    } else if s.writer.None? {
      t := s;
      LeadsItself(mode, s);
    } else if s.calls[s.writer.value].phase.Announced? {
      var next := Moved(s, s.writer.value, Inside);
      CanGoIn(mode, s, s.writer.value);
      t := LockComesFree(mode, next);
      LeadsOn(mode, s, next, t);
    } else {
      assert HoldsAlone(s.calls[s.writer.value]);
      CanFinish(mode, s, s.writer.value);
      t := LockComesFree(mode, Finished(s, s.writer.value));
      LeadsOn(mode, s, Finished(s, s.writer.value), t);
    }
  }

  /** A waiting call gets a free lock and goes in. */
  lemma CanEnter(mode: Mode, s: State, c: nat) returns (t: State)
    requires Inv(s) && LockFree(s) && InPhase(s, c, Waiting)
    ensures Leads(mode, s, t) && Inv(t) && InPhase(t, c, Inside) && t.calls[c].op == s.calls[c].op && t.data == s.data
    ensures Registering(t) <==> s.calls[c].op.RegisterCollections?
  {
    hide Works, Redistributes, Leads;
    var first := if s.calls[c].op.GetDistributionStatus? then Moved(s, c, Inside).(readers := s.readers + {c})
                 else Moved(s, c, Announced).(writer := Some(c));
    assert Moves(mode, s, c, first);
    EntryKeepsInv(s, c, first);
    t := if s.calls[c].op.GetDistributionStatus? then first else Moved(first, c, Inside);
    LeadsItself(mode, t);
    if !s.calls[c].op.GetDistributionStatus? {
      CanGoIn(mode, first, c);
      LeadsOn(mode, first, t, t);
    }
    LeadsOn(mode, s, first, t);
  }

  /** A call that may enter a free lock gets it, does its work and returns. */
  lemma CanReturn(mode: Mode, s: State, c: nat) returns (t: State)
    requires Inv(s) && LockFree(s) && InPhase(s, c, Waiting) && !s.calls[c].op.RegisterCollections?
    ensures Leads(mode, s, t) && InPhase(t, c, Returned)
  {
    hide Works, Next, Leads, Inv;
    var inside := CanEnter(mode, s, c);
    t := Finished(inside, c);
    CanFinish(mode, inside, c);
    LeadsItself(mode, t);
    LeadsOn(mode, inside, t, t);
    LeadsFurther(mode, s, inside, t);
  }

  predicate SameCalls(s: State, t: State) {
    |s.calls| <= |t.calls| && forall c :: 0 <= c < |s.calls| ==> t.calls[c].op == s.calls[c].op
  }

  lemma StepKeepsCalls(mode: Mode, s: State, t: State)
    requires Next(mode, s, t)
    ensures SameCalls(s, t)
  {
    hide Distributes;
  }

  lemma {:induction false} RunKeepsCalls(mode: Mode, run: seq<State>, i: nat)
    requires IsRun(mode, run) && i < |run|
    ensures SameCalls(run[0], run[i])
  {
    hide Next;
    if i > 0 {
      RunKeepsCalls(mode, run, i - 1);
      StepKeepsCalls(mode, run[i - 1], run[i]);
    }
  }

  /** What every later state keeps. */
  lemma Later(mode: Mode, s: State, t: State)
    requires Inv(s) && Leads(mode, s, t)
    ensures Inv(t) && SameCalls(s, t)
    ensures Registering(s) ==> Registering(t) && Frozen(s, t)
  {
    hide Next, Inv, Frozen;
    var run :| IsRun(mode, run) && run[0] == s && run[|run| - 1] == t;
    RunKeepsInv(mode, run, 0, |run| - 1);
    RunKeepsCalls(mode, run, |run| - 1);
  }

  /**
   * Exactly which waiting calls can ever return: those that do not register collections, as long as no
   * registration has got the lock.
   */
  lemma ReturnsIff(mode: Mode, s: State, c: nat)
    requires Reachable(mode, s) && InPhase(s, c, Waiting)
    ensures (exists t :: Leads(mode, s, t) && InPhase(t, c, Returned)) <==>
            !Registering(s) && !s.calls[c].op.RegisterCollections?
  {
    hide Leads, Reachable;
    ReachableKeepsInv(mode, s);
    forall t | Leads(mode, s, t) && InPhase(t, c, Returned)
      ensures !Registering(s) && !s.calls[c].op.RegisterCollections?
    {
      Later(mode, s, t);
    }
    if !Registering(s) && !s.calls[c].op.RegisterCollections? {
      var free := LockComesFree(mode, s);
      var t := CanReturn(mode, free, c);
      LeadsFurther(mode, s, free, t);
    }
  }

  lemma WaitsForItself(s: State, c: nat, t: State)
    requires Inv(s) && InPhase(s, c, Reentering) && Registering(s) && Frozen(s, t)
    ensures t.writer == Some(c) && InPhase(t, c, Reentering) && t.data == s.data
  {
    assert HoldsAlone(s.calls[c]);
  }

  /**
   * From every state with the lock free a waiting registration can get it and then waits for itself: from
   * there on, for ever, nothing happens at the distributor but the arrival of further calls.
   */
  lemma RegistrationWaitsForItself(mode: Mode, s: State, c: nat) returns (stuck: State)
    requires Reachable(mode, s) && LockFree(s) && InPhase(s, c, Waiting) && s.calls[c].op.RegisterCollections?
    ensures Leads(mode, s, stuck) && InPhase(stuck, c, Reentering)
    ensures forall key :: key in s.calls[c].op.keys ==> key in stuck.data.registry
    ensures forall t, u :: Leads(mode, stuck, t) && Next(mode, t, u) ==>
              t.data == stuck.data && exists op :: u == Entered(t, op)
  {
    hide Reachable, Inv, Leads, Frozen;
    ReachableKeepsInv(mode, s);
    var inside := CanEnter(mode, s, c);
    var keys := s.calls[c].op.keys;
    stuck := Moved(inside, c, Reentering).(data := s.data.(registry := Registered(s.data.registry, keys)));
    assert Works(mode, inside, c, stuck);
    assert Moves(mode, inside, c, stuck);
    StepKeepsInv(mode, inside, stuck);
    LeadsItself(mode, stuck);
    LeadsOn(mode, inside, stuck, stuck);
    LeadsFurther(mode, s, inside, stuck);
    forall t, u | Leads(mode, stuck, t) && Next(mode, t, u)
      ensures t.data == stuck.data && exists op :: u == Entered(t, op)
    {
      Later(mode, stuck, t);
      WaitsForItself(stuck, c, t);
      OnlyArrivals(mode, t, u);
    }
  }

  lemma OnlyArrivals(mode: Mode, s: State, t: State)
    requires Inv(s) && Registering(s) && InPhase(s, s.writer.value, Reentering) && Next(mode, s, t)
    ensures exists op :: t == Entered(s, op)
  {
    hide Distributes, Redistributes;
    if c: nat :| Moves(mode, s, c, t) {
      NoSecondLock(mode, s, c, t);
    }
  }
}
