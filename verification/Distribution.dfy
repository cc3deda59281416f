/** Distribution of collections over connected VMs, with the weighted and the round-robin balancer. */
module Distribution {
  import opened Common

  /** Client IDs and collection keys; the empty text is the source's mark for "unassigned". */
  datatype Name = Name(text: string)

  const UNASSIGNED := Name("")

  datatype Status = Healthy | Overloaded | Unreachable | Maintenance

  datatype VM = VM(maxCollections: int, holding: set<Name>, status: Status)

  datatype CollectionInfo = CollectionInfo(assignedTo: Name, isActive: bool)

  datatype Mode = Weighted | RoundRobin

  type VMs = map<Name, VM>

  type Registry = map<Name, CollectionInfo>

  // ---------- what the code computes, on values ----------

  function Weight(vm: VM): nat {
    if vm.maxCollections - |vm.holding| <= 0 then 0 else vm.maxCollections - |vm.holding|
  }

  predicate Connected(vms: VMs, ids: seq<Name>) {
    forall id :: id in ids ==> id in vms
  }

  function TotalWeight(vms: VMs, available: seq<Name>): nat
    requires Connected(vms, available)
  {
    if available == [] then 0
    else TotalWeight(vms, available[..|available| - 1]) + Weight(vms[available[|available| - 1]])
  }

  /** The first VM whose cumulated weight exceeds `target`, or the first VM of all. */
  function Scan(vms: VMs, available: seq<Name>, target: nat, i: nat): (r: nat)
    requires Connected(vms, available) && i <= |available| && available != []
    ensures r < |available|
    decreases |available| - i
  {
    if i == |available| then 0
    else if target < TotalWeight(vms, available[..i + 1]) then i
    else Scan(vms, available, target, i + 1)
  }

  /** The index of the VM the balancer picks with its counter at `counter`. */
  function Pick(mode: Mode, vms: VMs, available: seq<Name>, counter: nat): (i: nat)
    requires Connected(vms, available) && available != []
    ensures i < |available|
  {
    if mode.RoundRobin? || TotalWeight(vms, available) == 0 then counter % |available|
    else Scan(vms, available, counter % TotalWeight(vms, available), 0)
  }

  function Assign(vms: VMs, id: Name, coll: Name): VMs
    requires id in vms
  {
    vms[id := vms[id].(holding := vms[id].holding + {coll})]
  }

  /** The VMs after each collection has been handed to its chosen VM, in list order. */
  function Hand(vms: VMs, colls: seq<Name>, choices: seq<Name>): (r: VMs)
    requires |choices| == |colls| && Connected(vms, choices)
    ensures r.Keys == vms.Keys
  {
    if colls == [] then vms
    else Assign(Hand(vms, colls[..|colls| - 1], choices[..|colls| - 1]), choices[|colls| - 1], colls[|colls| - 1])
  }

  /** The VMs the balancer chooses for the collections, one after the other. */
  function Choices(mode: Mode, vms: VMs, available: seq<Name>, colls: seq<Name>, counter: nat): (choices: seq<Name>)
    requires Connected(vms, available) && available != []
    ensures |choices| == |colls| && forall id :: id in choices ==> id in available
  {
    if colls == [] then []
    else
      var n := |colls| - 1;
      var before := Choices(mode, vms, available, colls[..n], counter);
      before + [available[Pick(mode, Hand(vms, colls[..n], before), available, counter + n)]]
  }

  function RegistryAfter(registry: Registry, colls: seq<Name>, choices: seq<Name>): (r: Registry)
    requires |choices| == |colls| && forall key :: key in colls ==> key in registry
    ensures r.Keys == registry.Keys
  {
    if colls == [] then registry
    else
      var n := |colls| - 1;
      var before := RegistryAfter(registry, colls[..n], choices[..n]);
      before[colls[n] := before[colls[n]].(assignedTo := choices[n])]
  }

  /** The plan with one more collection listed under its VM. */
  function Noted(plan: map<Name, seq<Name>>, id: Name, coll: Name): map<Name, seq<Name>> {
    plan[id := (if id in plan then plan[id] else []) + [coll]]
  }

  function PlanAfter(colls: seq<Name>, choices: seq<Name>): map<Name, seq<Name>>
    requires |choices| == |colls|
  {
    if colls == [] then map[]
    else
      var n := |colls| - 1;
      var before := PlanAfter(colls[..n], choices[..n]);
      Noted(before, choices[n], colls[n])
  }

  predicate Distinct(s: seq<Name>) {
    forall i, j :: 0 <= i < j < |s| ==> s[i] != s[j]
  }

  /** The list enumerates the healthy VMs that have room left. */
  ghost predicate ListsHealthy(vms: VMs, available: seq<Name>) {
    && Distinct(available)
    && forall id :: id in available <==> id in vms && vms[id].status.Healthy? && |vms[id].holding| < vms[id].maxCollections
  }

  /** The list enumerates the active collections without a VM. */
  ghost predicate ListsUnassigned(registry: Registry, colls: seq<Name>) {
    && Distinct(colls)
    && forall key :: key in colls <==> key in registry && registry[key].assignedTo == UNASSIGNED && registry[key].isActive
  }

  // ---------- the distributor object ----------

  class CollectionDistributor {
    const mode: Mode
    var connectedVMs: VMs
    var collectionRegistry: Registry
    var counter: nat

    constructor (mode: Mode)
      ensures this.mode == mode && connectedVMs == map[] && collectionRegistry == map[] && counter == 0
    {
      this.mode := mode;
      connectedVMs, collectionRegistry, counter := map[], map[], 0;
    }

    method GetHealthyVMs() returns (available: seq<Name>)
      ensures ListsHealthy(connectedVMs, available)
    {
      available := [];
      var ids := connectedVMs.Keys;
      while ids != {}
        invariant ids <= connectedVMs.Keys && Distinct(available)
        invariant forall id :: id in available <==>
          id in connectedVMs && id !in ids && connectedVMs[id].status.Healthy?
          && |connectedVMs[id].holding| < connectedVMs[id].maxCollections
      {
        var id :| id in ids;
        ids := ids - {id};
        if connectedVMs[id].status.Healthy? && |connectedVMs[id].holding| < connectedVMs[id].maxCollections {
          available := available + [id];
        }
      }
    }

    method GetUnassignedCollections() returns (colls: seq<Name>)
      ensures ListsUnassigned(collectionRegistry, colls)
    {
      colls := [];
      var keys := collectionRegistry.Keys;
      while keys != {}
        invariant keys <= collectionRegistry.Keys && Distinct(colls)
        invariant forall key :: key in colls <==>
          key in collectionRegistry && key !in keys
          && collectionRegistry[key].assignedTo == UNASSIGNED && collectionRegistry[key].isActive
      {
        var key :| key in keys;
        keys := keys - {key};
        if collectionRegistry[key].assignedTo == UNASSIGNED && collectionRegistry[key].isActive {
          colls := colls + [key];
        }
      }
    }

    /** The balancer's selection; the counter moves on with every call. */
    method SelectVM(available: seq<Name>) returns (i: nat)
      requires Connected(connectedVMs, available) && available != []
      modifies this`counter
      ensures i == Pick(mode, connectedVMs, available, old(counter))
      ensures counter == old(counter) + 1
    {
      counter := counter + 1;
      if mode.RoundRobin? {
        return (counter - 1) % |available|;
      }
      var totalWeight := 0;
      for k := 0 to |available|
        invariant totalWeight == TotalWeight(connectedVMs, available[..k])
      {
        assert available[..k + 1][..k] == available[..k];
        totalWeight := totalWeight + Weight(connectedVMs[available[k]]);
      }
      assert available[..|available|] == available;
      if totalWeight == 0 {
        return (counter - 1) % |available|;
      }
      var target := (counter - 1) % totalWeight;
      var currentWeight := 0;
      for k := 0 to |available|
        invariant currentWeight == TotalWeight(connectedVMs, available[..k])
        invariant Scan(connectedVMs, available, target, 0) == Scan(connectedVMs, available, target, k)
      {
        assert available[..k + 1][..k] == available[..k];
        currentWeight := currentWeight + Weight(connectedVMs[available[k]]);
        if target < currentWeight {
          return k;
        }
      }
      i := 0;
    }

    /** Selects a VM for one collection and records the assignment. */
    method AssignOne(vms: seq<Name>, coll: Name) returns (id: Name)
      requires Connected(connectedVMs, vms) && vms != [] && coll in collectionRegistry
      modifies this
      ensures id == vms[Pick(mode, old(connectedVMs), vms, old(counter))]
      ensures connectedVMs == Assign(old(connectedVMs), id, coll)
      ensures collectionRegistry == old(collectionRegistry)[coll := old(collectionRegistry)[coll].(assignedTo := id)]
      ensures counter == old(counter) + 1
    {
      var i := SelectVM(vms);
      id := vms[i];
      collectionRegistry := collectionRegistry[coll := collectionRegistry[coll].(assignedTo := id)];
      connectedVMs := Assign(connectedVMs, id, coll);
    }

    /** Hands the listed collections to VMs one by one and notes each assignment in the plan. */
    method Distribute(vms: seq<Name>, colls: seq<Name>) returns (assignments: map<Name, seq<Name>>)
      requires Connected(connectedVMs, vms) && vms != [] && forall key :: key in colls ==> key in collectionRegistry
      modifies this
      ensures var choices := Choices(mode, old(connectedVMs), vms, colls, old(counter));
              && connectedVMs == Hand(old(connectedVMs), colls, choices)
              && collectionRegistry == RegistryAfter(old(collectionRegistry), colls, choices)
              && assignments == PlanAfter(colls, choices)
              && counter == old(counter) + |colls|
    {
      hide Pick, Hand, Choices, RegistryAfter, PlanAfter;
      NothingAssigned(mode, connectedVMs, collectionRegistry, vms, counter);
      ghost var vms0, registry0, counter0 := connectedVMs, collectionRegistry, counter;
      ghost var done: seq<Name> := [];
      assignments := map[];
      for k := 0 to |colls|
        invariant done == colls[..k] && counter == counter0 + k
        invariant connectedVMs.Keys == vms0.Keys && collectionRegistry.Keys == registry0.Keys
        invariant Reached(mode, vms0, registry0, vms, done, counter0, connectedVMs, collectionRegistry, assignments)
      {
        assert colls[k] in colls;
        OneMoreAssignment(mode, vms0, registry0, vms, done, counter0, connectedVMs, collectionRegistry, assignments, colls[k]);
        var id := AssignOne(vms, colls[k]);
        assignments := Noted(assignments, id, colls[k]);
        done := done + [colls[k]];
      }
      assert colls[..|colls|] == colls;
    }

    /** Hands every unassigned collection to a VM; `None` when no VM is available. */
    method AutoDistribute() returns (plan: Option<map<Name, seq<Name>>>, ghost available: seq<Name>, ghost colls: seq<Name>)
      modifies this
      ensures ListsHealthy(old(connectedVMs), available) && ListsUnassigned(old(collectionRegistry), colls)
      ensures plan.None? <==> available == []
      ensures available == [] ==>
        connectedVMs == old(connectedVMs) && collectionRegistry == old(collectionRegistry) && counter == old(counter)
      ensures available != [] ==>
        var choices := Choices(mode, old(connectedVMs), available, colls, old(counter));
        && connectedVMs == Hand(old(connectedVMs), colls, choices)
        && collectionRegistry == RegistryAfter(old(collectionRegistry), colls, choices)
        && plan.value == PlanAfter(colls, choices)
        && counter == old(counter) + |colls|
    {
      var vms := GetHealthyVMs();
      var unassigned := GetUnassignedCollections();
      available, colls := vms, unassigned;
      if |vms| == 0 {
        return None, available, colls;
      }
      var assignments := Distribute(vms, unassigned);
      plan := Some(assignments);
    }
  }

  /** The state a distribution has reached once the collections `done` are handed out. */
  ghost predicate Reached(
      mode: Mode, vms0: VMs, registry0: Registry, available: seq<Name>, done: seq<Name>, counter0: nat,
      vms: VMs, registry: Registry, plan: map<Name, seq<Name>>)
    requires Connected(vms0, available) && available != [] && forall key :: key in done ==> key in registry0
  {
    var choices := Choices(mode, vms0, available, done, counter0);
    vms == Hand(vms0, done, choices) && registry == RegistryAfter(registry0, done, choices) && plan == PlanAfter(done, choices)
  }

  lemma NothingAssigned(mode: Mode, vms: VMs, registry: Registry, available: seq<Name>, counter: nat)
    requires Connected(vms, available) && available != []
    ensures Reached(mode, vms, registry, available, [], counter, vms, registry, map[])
  {
  }

  lemma OneMoreAssignment(
      mode: Mode, vms0: VMs, registry0: Registry, available: seq<Name>, done: seq<Name>, counter0: nat,
      vms: VMs, registry: Registry, plan: map<Name, seq<Name>>, coll: Name)
    requires Connected(vms0, available) && available != [] && coll in registry0
    requires forall key :: key in done ==> key in registry0
    requires Reached(mode, vms0, registry0, available, done, counter0, vms, registry, plan)
    ensures Connected(vms, available) && coll in registry
    ensures var id := available[Pick(mode, vms, available, counter0 + |done|)];
            Reached(mode, vms0, registry0, available, done + [coll], counter0, Assign(vms, id, coll),
                    registry[coll := registry[coll].(assignedTo := id)], Noted(plan, id, coll))
  {
    hide Pick, Noted;
    var choices := Choices(mode, vms0, available, done, counter0);
    var id := available[Pick(mode, vms, available, counter0 + |done|)];
    assert (done + [coll])[..|done|] == done;
    assert Choices(mode, vms0, available, done + [coll], counter0) == choices + [id];
    assert (choices + [id])[..|done|] == choices;
  }

  // ---------- the plan and the registry ----------

  lemma OneMoreEntry(registry: Registry, colls: seq<Name>, choices: seq<Name>)
    requires |choices| == |colls| > 0 && Distinct(colls) && forall key :: key in colls ==> key in registry
    ensures var n := |colls| - 1;
            && Distinct(colls[..n]) && (forall key :: key in colls[..n] ==> key in registry)
            && (forall key :: key in colls <==> key in colls[..n] || key == colls[n])
            && (forall j :: 0 <= j < n ==> colls[j] != colls[n] && colls[..n][j] == colls[j] && choices[..n][j] == choices[j])
  {
    assert colls == colls[..|colls| - 1] + [colls[|colls| - 1]];
  }

  /** What the registry says after the assignments: each collection has its choice, the rest stands. */
  lemma {:induction false} RegistryMeaning(registry: Registry, colls: seq<Name>, choices: seq<Name>)
    requires |choices| == |colls| && Distinct(colls) && forall key :: key in colls ==> key in registry
    ensures var after := RegistryAfter(registry, colls, choices);
            && (forall key :: key in registry && key !in colls ==> after[key] == registry[key])
            && (forall j :: 0 <= j < |colls| ==> after[colls[j]] == registry[colls[j]].(assignedTo := choices[j]))
  {
    if colls != [] {
      hide Distinct;
      var n := |colls| - 1;
      OneMoreEntry(registry, colls, choices);
      RegistryMeaning(registry, colls[..n], choices[..n]);
      var before, after := RegistryAfter(registry, colls[..n], choices[..n]), RegistryAfter(registry, colls, choices);
      assert before[colls[n]] == registry[colls[n]];
      forall j | 0 <= j < |colls| ensures after[colls[j]] == registry[colls[j]].(assignedTo := choices[j]) {
        if j < n {
          assert after[colls[j]] == before[colls[..n][j]];
        }
      }
    }
  }

  /** The collection is among those handed out, and `id` is its VM. */
  ghost predicate HandedTo(colls: seq<Name>, choices: seq<Name>, id: Name, key: Name)
    requires |choices| == |colls|
  {
    exists j :: 0 <= j < |colls| && colls[j] == key && choices[j] == id
  }

  lemma HandedStep(colls: seq<Name>, choices: seq<Name>, id: Name, key: Name)
    requires |choices| == |colls| && colls != []
    ensures var n := |colls| - 1;
            && (HandedTo(colls, choices, id, key) <==>
                  HandedTo(colls[..n], choices[..n], id, key) || (colls[n] == key && choices[n] == id))
            && (Distinct(colls) && colls[n] == key ==> !HandedTo(colls[..n], choices[..n], id, key))
  {
    var n := |colls| - 1;
    if j :| 0 <= j < n && colls[j] == key && choices[j] == id {
      assert colls[..n][j] == key && choices[..n][j] == id;
    }
  }

  /** A plan lists each new assignment exactly once under its VM, in order, and nothing under any other. */
  lemma {:induction false} PlanListsOnce(colls: seq<Name>, choices: seq<Name>, id: Name, key: Name)
    requires |choices| == |colls| && Distinct(colls)
    ensures var plan := PlanAfter(colls, choices);
            && multiset(if id in plan then plan[id] else [])[key] == (if HandedTo(colls, choices, id, key) then 1 else 0)
            && Subsequence(if id in plan then plan[id] else [], colls)
  {
    if colls != [] {
      var n := |colls| - 1;
      PlanListsOnce(colls[..n], choices[..n], id, key);
      HandedStep(colls, choices, id, key);
    }
  }

  // ---------- weighted selection ----------

  /** The VM whose slice of the cumulated weights contains `target`. */
  predicate Covers(vms: VMs, available: seq<Name>, target: nat, i: nat)
    requires Connected(vms, available)
  {
    i < |available| && TotalWeight(vms, available[..i]) <= target < TotalWeight(vms, available[..i + 1])
  }

  /** The cumulative scan always finds its VM: the final fallback is never reached. */
  lemma {:induction false} ScanCovers(vms: VMs, available: seq<Name>, target: nat, i: nat)
    requires Connected(vms, available) && i < |available|
    requires TotalWeight(vms, available[..i]) <= target < TotalWeight(vms, available)
    ensures Covers(vms, available, target, Scan(vms, available, target, i))
    decreases |available| - i
  {
    assert i + 1 == |available| ==> available[..i + 1] == available;
    if target >= TotalWeight(vms, available[..i + 1]) {
      ScanCovers(vms, available, target, i + 1);
    }
  }

  /** While any VM has room, the weighted balancer picks one that has. */
  lemma WeightedPickHasRoom(vms: VMs, available: seq<Name>, counter: nat)
    requires Connected(vms, available) && available != [] && TotalWeight(vms, available) > 0
    ensures var i := Pick(Weighted, vms, available, counter);
            && Covers(vms, available, counter % TotalWeight(vms, available), i)
            && Weight(vms[available[i]]) > 0
  {
    var target := counter % TotalWeight(vms, available);
    assert TotalWeight(vms, available[..0]) == 0;
    ScanCovers(vms, available, target, 0);
    var i := Scan(vms, available, target, 0);
    assert available[..i + 1][..i] == available[..i];
  }

  // ---------- capacity ----------

  /** Room left on the listed VMs, negative where a VM is over its limit. */
  function Room(vms: VMs, available: seq<Name>): int
    requires Connected(vms, available)
  {
    if available == [] then 0
    else
      var vm := vms[available[|available| - 1]];
      Room(vms, available[..|available| - 1]) + vm.maxCollections - |vm.holding|
  }

  predicate WithinCapacity(vms: VMs, available: seq<Name>)
    requires Connected(vms, available)
  {
    forall id :: id in available ==> |vms[id].holding| <= vms[id].maxCollections
  }

  lemma {:induction false} RoomIsWeight(vms: VMs, available: seq<Name>)
    requires Connected(vms, available) && WithinCapacity(vms, available)
    ensures Room(vms, available) == TotalWeight(vms, available)
  {
    if available != [] {
      RoomIsWeight(vms, available[..|available| - 1]);
      assert available[|available| - 1] in available;
    }
  }

  lemma {:induction false} RoomFrame(vms: VMs, after: VMs, available: seq<Name>)
    requires Connected(vms, available) && Connected(after, available)
    requires forall id :: id in available ==> after[id] == vms[id]
    ensures Room(after, available) == Room(vms, available)
  {
    if available != [] {
      RoomFrame(vms, after, available[..|available| - 1]);
      assert available[|available| - 1] in available;
    }
  }

  /** Assigning a collection that the VM does not hold yet uses up one unit of room. */
  lemma {:induction false} RoomAfterAssign(vms: VMs, available: seq<Name>, id: Name, coll: Name)
    requires Connected(vms, available) && Distinct(available) && id in available
    ensures Room(Assign(vms, id, coll), available) == Room(vms, available) - if coll in vms[id].holding then 0 else 1
  {
    hide Assign;
    var n := |available| - 1;
    var after := Assign(vms, id, coll);
    AssignedOne(vms, id, coll);
    LastOrBefore(available, id);
    if available[n] == id {
      RoomFrame(vms, after, available[..n]);
    } else {
      RoomAfterAssign(vms, available[..n], id, coll);
    }
  }

  lemma AssignedOne(vms: VMs, id: Name, coll: Name)
    requires id in vms
    ensures var after := Assign(vms, id, coll);
            && after.Keys == vms.Keys && (forall other :: other in vms && other != id ==> after[other] == vms[other])
            && after[id].maxCollections == vms[id].maxCollections
            && |after[id].holding| == |vms[id].holding| + if coll in vms[id].holding then 0 else 1
  {
    if coll in vms[id].holding {
      assert vms[id].holding + {coll} == vms[id].holding;
    }
  }

  lemma LastOrBefore(available: seq<Name>, id: Name)
    requires Distinct(available) && id in available
    ensures var n := |available| - 1;
            && Distinct(available[..n]) && (available[n] == id <==> id !in available[..n])
  {
    assert available == available[..|available| - 1] + [available[|available| - 1]];
  }

  /** Handing out leaves limits alone and only adds the collections that were handed to a VM. */
  lemma {:induction false} HoldersAfterHand(vms: VMs, colls: seq<Name>, choices: seq<Name>, id: Name, key: Name)
    requires |choices| == |colls| && Connected(vms, choices) && id in vms
    ensures Hand(vms, colls, choices)[id].maxCollections == vms[id].maxCollections
    ensures key in Hand(vms, colls, choices)[id].holding <==>
            key in vms[id].holding || HandedTo(colls, choices, id, key)
  {
    if colls != [] {
      var n := |colls| - 1;
      HoldersAfterHand(vms, colls[..n], choices[..n], id, key);
      HandedStep(colls, choices, id, key);
    }
  }

  /** No listed VM holds any of the collections yet. */
  predicate Fresh(vms: VMs, available: seq<Name>, colls: seq<Name>)
    requires Connected(vms, available)
  {
    forall id, coll :: id in available && coll in colls ==> coll !in vms[id].holding
  }

  lemma {:induction false} RoomAfterHand(vms: VMs, available: seq<Name>, colls: seq<Name>, choices: seq<Name>)
    requires Connected(vms, available) && Distinct(available)
    requires |choices| == |colls| && forall id :: id in choices ==> id in available
    ensures Room(Hand(vms, colls, choices), available) >= Room(vms, available) - |colls|
  {
    if colls != [] {
      var n := |colls| - 1;
      RoomAfterHand(vms, available, colls[..n], choices[..n]);
      RoomAfterAssign(Hand(vms, colls[..n], choices[..n]), available, choices[n], colls[n]);
    }
  }

  lemma {:induction false} RoomAfterFreshHand(vms: VMs, available: seq<Name>, colls: seq<Name>, choices: seq<Name>)
    requires Connected(vms, available) && Distinct(available) && Distinct(colls) && Fresh(vms, available, colls)
    requires |choices| == |colls| && forall id :: id in choices ==> id in available
    ensures Room(Hand(vms, colls, choices), available) == Room(vms, available) - |colls|
  {
    if colls != [] {
      hide Room, Assign;
      var n := |colls| - 1;
      var init := colls[..n];
      assert forall coll :: coll in init ==> coll in colls;
      assert choices[n] in available && colls[n] in colls;
      RoomAfterFreshHand(vms, available, init, choices[..n]);
      HoldersAfterHand(vms, init, choices[..n], choices[n], colls[n]);
      RoomAfterAssign(Hand(vms, init, choices[..n]), available, choices[n], colls[n]);
    }
  }

  /** The weighted balancer respects every limit as long as the collections fit into the total room. */
  lemma {:induction false} WeightedRespectsCapacity(vms: VMs, available: seq<Name>, colls: seq<Name>, counter: nat)
    requires Connected(vms, available) && Distinct(available) && available != []
    requires WithinCapacity(vms, available) && |colls| <= TotalWeight(vms, available)
    ensures WithinCapacity(Hand(vms, colls, Choices(Weighted, vms, available, colls, counter)), available)
  {
    hide Scan, Distinct, Weight, Assign, Covers, Room;
    if colls != [] {
      var n := |colls| - 1;
      var choices := Choices(Weighted, vms, available, colls, counter);
      var before := Hand(vms, colls[..n], choices[..n]);
      WeightedRespectsCapacity(vms, available, colls[..n], counter);
      RoomAfterHand(vms, available, colls[..n], choices[..n]);
      RoomIsWeight(vms, available);
      RoomIsWeight(before, available);
      WeightedPickHasRoom(before, available, counter + n);
      OneMore(before, available, choices[n], colls[n]);
    }
  }

  lemma OneMore(vms: VMs, available: seq<Name>, id: Name, coll: Name)
    requires Connected(vms, available) && WithinCapacity(vms, available) && id in vms && Weight(vms[id]) > 0
    ensures WithinCapacity(Assign(vms, id, coll), available)
  {
  }

  /**
   * Capacity safety is exact: for collections no VM holds yet, one weighted distribution keeps every VM
   * within its limit if and only if the collections do not outnumber the total remaining capacity.
   */
  lemma CapacitySafeIffFits(vms: VMs, available: seq<Name>, colls: seq<Name>, counter: nat)
    requires ListsHealthy(vms, available) && available != [] && Distinct(colls) && Fresh(vms, available, colls)
    ensures WithinCapacity(Hand(vms, colls, Choices(Weighted, vms, available, colls, counter)), available) <==>
            |colls| <= TotalWeight(vms, available)
  {
    var choices := Choices(Weighted, vms, available, colls, counter);
    RoomIsWeight(vms, available);
    RoomAfterFreshHand(vms, available, colls, choices);
    if |colls| <= TotalWeight(vms, available) {
      WeightedRespectsCapacity(vms, available, colls, counter);
    }
    if WithinCapacity(Hand(vms, colls, choices), available) {
      RoomIsWeight(Hand(vms, colls, choices), available);
    }
  }

  // ---------- completeness, and one VM per collection ----------

  /** A VM only holds collections the registry assigns to it. */
  ghost predicate Coherent(vms: VMs, registry: Registry) {
    forall id, key :: id in vms && key in vms[id].holding ==> key in registry && registry[key].assignedTo == id
  }

  /**
   * Completeness: after a distribution over VMs with non-empty IDs every active collection has a VM,
   * and the earlier assignments stand.
   */
  lemma DistributionIsComplete(mode: Mode, vms: VMs, registry: Registry, available: seq<Name>, colls: seq<Name>, counter: nat)
    requires ListsHealthy(vms, available) && available != [] && ListsUnassigned(registry, colls) && UNASSIGNED !in vms
    ensures var after := RegistryAfter(registry, colls, Choices(mode, vms, available, colls, counter));
            && (forall key :: key in colls ==> after[key].assignedTo in available)
            && (forall key :: key in after && after[key].isActive ==> after[key].assignedTo != UNASSIGNED)
            && (forall key :: key in registry && registry[key].assignedTo != UNASSIGNED ==> after[key] == registry[key])
  {
    var choices := Choices(mode, vms, available, colls, counter);
    var after := RegistryAfter(registry, colls, choices);
    RegistryMeaning(registry, colls, choices);
    forall key | key in colls ensures after[key].assignedTo in available {
      var j :| 0 <= j < |colls| && colls[j] == key;
      assert choices[j] in available;
    }
  }

  /** If no collection is on two VMs before a distribution, none is afterwards. */
  lemma DistributionKeepsCoherence(mode: Mode, vms: VMs, registry: Registry, available: seq<Name>, colls: seq<Name>, counter: nat)
    requires ListsHealthy(vms, available) && available != [] && ListsUnassigned(registry, colls) && UNASSIGNED !in vms
    requires Coherent(vms, registry)
    ensures var choices := Choices(mode, vms, available, colls, counter);
            Coherent(Hand(vms, colls, choices), RegistryAfter(registry, colls, choices))
  {
    var choices := Choices(mode, vms, available, colls, counter);
    var after := Hand(vms, colls, choices);
    RegistryMeaning(registry, colls, choices);
    forall id, key | id in after && key in after[id].holding
      ensures key in registry && RegistryAfter(registry, colls, choices)[key].assignedTo == id
    {
      HoldersAfterHand(vms, colls, choices, id, key);
    }
  }

  // ---------- round robin ----------

  lemma {:induction false} RoundRobinChoice(vms: VMs, available: seq<Name>, colls: seq<Name>, counter: nat, j: nat)
    requires Connected(vms, available) && available != [] && j < |colls|
    ensures Choices(RoundRobin, vms, available, colls, counter)[j] == available[TurnAt(counter, j, |available|)]
  {
    if j < |colls| - 1 {
      RoundRobinChoice(vms, available, colls[..|colls| - 1], counter, j);
    }
  }

  /** The index that comes up `j` picks after `counter`, over `n` VMs. */
  function TurnAt(counter: nat, j: nat, n: nat): (i: nat)
    requires n > 0
    ensures i < n
  {
    (counter + j) % n
  }

  /** How often index `i` comes up among the `k` picks from `counter` on, over `n` VMs. */
  function Turns(counter: nat, k: nat, n: nat, i: nat): nat
    requires n > 0
  {
    if k == 0 then 0 else Turns(counter, k - 1, n, i) + if TurnAt(counter, k - 1, n) == i then 1 else 0
  }

  lemma NextRemainder(m: nat, n: nat)
    requires n > 0
    ensures (m + 1) % n == if m % n == n - 1 then 0 else m % n + 1
  {
    var q, r := m / n, m % n;
    assert m == n * q + r;
    if r == n - 1 {
      assert n * (q + 1) == n * q + n;
      DivisionIsUnique(m + 1, n, q + 1, 0);
    } else {
      DivisionIsUnique(m + 1, n, q, r + 1);
    }
  }

  /** Picks made since index `i` last came up, modulo a full round. */
  function Since(m: nat, n: nat, i: nat): nat
    requires i < n
  {
    if m % n > i then m % n - i - 1 else m % n + n - i - 1
  }

  lemma SinceNext(m: nat, n: nat, i: nat)
    requires i < n
    ensures Since(m + 1, n, i) == if m % n == i then 0 else Since(m, n, i) + 1
    ensures m % n == i ==> Since(m, n, i) == n - 1
  {
    NextRemainder(m, n);
  }

  lemma {:induction false} TurnsAccount(counter: nat, k: nat, n: nat, i: nat)
    requires i < n
    ensures n * Turns(counter, k, n, i) == k + Since(counter, n, i) - Since(counter + k, n, i)
  {
    if k > 0 {
      TurnsAccount(counter, k - 1, n, i);
      SinceNext(counter + k - 1, n, i);
      OneMoreTurn(n, Turns(counter, k - 1, n, i));
    }
  }

  lemma OneMoreTurn(n: nat, turns: nat)
    ensures n * (turns + 1) == n * turns + n
  {
  }

  /** Names taken from the list in turn come up as often as their index does. */
  lemma {:induction false} NamesInTurn(available: seq<Name>, picks: seq<Name>, counter: nat, i: nat)
    requires Distinct(available) && i < |available|
    requires forall j :: 0 <= j < |picks| ==> picks[j] == available[TurnAt(counter, j, |available|)]
    ensures multiset(picks)[available[i]] == Turns(counter, |picks|, |available|, i)
  {
    hide TurnAt, Distinct;
    if picks != [] {
      var n := |picks| - 1;
      NamesInTurn(available, picks[..n], counter, i);
      SameName(available, TurnAt(counter, n, |available|), i);
      assert picks == picks[..n] + [picks[n]];
    }
  }

  lemma SameName(available: seq<Name>, i: nat, j: nat)
    requires Distinct(available) && i < |available| && j < |available|
    ensures available[i] == available[j] <==> i == j
  {
  }

  /**
   * Round robin is balanced: over `k` new collections each of `n` VMs is chosen floor(k/n) or
   * ceil(k/n) times, that is, less than one round away from its exact share.
   */
  lemma RoundRobinIsBalanced(vms: VMs, available: seq<Name>, colls: seq<Name>, counter: nat, id: Name)
    requires Connected(vms, available) && Distinct(available) && id in available
    ensures var turns := multiset(Choices(RoundRobin, vms, available, colls, counter))[id];
            |colls| - |available| < |available| * turns < |colls| + |available|
  {
    hide TurnAt;
    var i :| 0 <= i < |available| && available[i] == id;
    var choices := Choices(RoundRobin, vms, available, colls, counter);
    forall j | 0 <= j < |colls| ensures choices[j] == available[TurnAt(counter, j, |available|)] {
      RoundRobinChoice(vms, available, colls, counter, j);
    }
    NamesInTurn(available, choices, counter, i);
    TurnsAccount(counter, |colls|, |available|, i);
  }

  // ---------- weighted shares ----------

  lemma {:induction false} PrefixWeights(vms: VMs, available: seq<Name>, i: nat, j: nat)
    requires Connected(vms, available) && i <= j <= |available|
    ensures TotalWeight(vms, available[..i]) <= TotalWeight(vms, available[..j])
    decreases j
  {
    if i < j {
      PrefixWeights(vms, available, i, j - 1);
      assert available[..j][..j - 1] == available[..j - 1];
    }
  }

  lemma SliceIsWeight(vms: VMs, available: seq<Name>, i: nat)
    requires Connected(vms, available) && i < |available|
    ensures TotalWeight(vms, available[..i + 1]) == TotalWeight(vms, available[..i]) + Weight(vms[available[i]])
    ensures TotalWeight(vms, available[..i + 1]) <= TotalWeight(vms, available)
  {
    assert available[..i + 1][..i] == available[..i] && available[..|available|] == available;
    PrefixWeights(vms, available, i + 1, |available|);
  }

  lemma CoversOnce(vms: VMs, available: seq<Name>, target: nat, i: nat, j: nat)
    requires Connected(vms, available) && Covers(vms, available, target, i) && Covers(vms, available, target, j)
    ensures i == j
  {
    hide TotalWeight;
    if i < j {
      PrefixWeights(vms, available, i + 1, j);
    } else if j < i {
      PrefixWeights(vms, available, j + 1, i);
    }
  }

  /** The weighted balancer picks exactly the VM whose slice the counter points into; without any room it takes turns. */
  lemma WeightedPickIff(vms: VMs, available: seq<Name>, counter: nat, i: nat)
    requires Connected(vms, available) && i < |available|
    ensures var total := TotalWeight(vms, available);
            Pick(Weighted, vms, available, counter) == i <==>
            if total == 0 then i == counter % |available| else Covers(vms, available, counter % total, i)
  {
    var total := TotalWeight(vms, available);
    if total > 0 {
      hide TotalWeight, Pick, Covers;
      WeightedPickHasRoom(vms, available, counter);
      if Covers(vms, available, counter % total, i) {
        CoversOnce(vms, available, counter % total, i, Pick(Weighted, vms, available, counter));
      }
    }
  }

  /** How often the weighted balancer picks VM `i` in `k` picks from `counter` on, while the weights stay. */
  function PicksOf(vms: VMs, available: seq<Name>, counter: nat, k: nat, i: nat): nat
    requires Connected(vms, available) && i < |available|
  {
    if k == 0 then 0
    else PicksOf(vms, available, counter, k - 1, i) + if Pick(Weighted, vms, available, counter + k - 1) == i then 1 else 0
  }

  /** How often an index between `low` and `high` comes up among the `k` picks in turn. */
  function SliceTurns(counter: nat, k: nat, n: nat, low: nat, high: nat): nat
    requires n > 0
  {
    if k == 0 then 0
    else SliceTurns(counter, k - 1, n, low, high) + if low <= TurnAt(counter, k - 1, n) < high then 1 else 0
  }

  lemma {:induction false} PicksAreTurns(vms: VMs, available: seq<Name>, counter: nat, k: nat, i: nat)
    requires Connected(vms, available) && i < |available| && TotalWeight(vms, available) > 0
    ensures PicksOf(vms, available, counter, k, i) ==
            SliceTurns(counter, k, TotalWeight(vms, available), TotalWeight(vms, available[..i]), TotalWeight(vms, available[..i + 1]))
  {
    hide TotalWeight, Pick;
    if k > 0 {
      PicksAreTurns(vms, available, counter, k - 1, i);
      WeightedPickIff(vms, available, counter + k - 1, i);
    }
  }

  lemma {:induction false} OneMoreIndex(counter: nat, k: nat, n: nat, low: nat, high: nat)
    requires n > 0 && low <= high
    ensures SliceTurns(counter, k, n, low, high + 1) == SliceTurns(counter, k, n, low, high) + Turns(counter, k, n, high)
    ensures SliceTurns(counter, k, n, low, low) == 0
  {
    hide TurnAt;
    if k > 0 {
      OneMoreIndex(counter, k - 1, n, low, high);
    }
  }

  lemma OncePerRound(counter: nat, n: nat, i: nat)
    requires i < n
    ensures Turns(counter, n, n, i) == 1
  {
    hide Turns, Since;
    TurnsAccount(counter, n, n, i);
    SinceRepeats(counter, n, i);
    FactorIsOne(n, Turns(counter, n, n, i));
  }

  lemma SinceRepeats(counter: nat, n: nat, i: nat)
    requires i < n
    ensures Since(counter + n, n, i) == Since(counter, n, i)
  {
    var q, r := counter / n, counter % n;
    assert counter == n * q + r;
    OneMoreTurn(n, q);
    DivisionIsUnique(counter + n, n, q + 1, r);
  }

  lemma FactorIsOne(n: nat, x: nat)
    requires n > 0 && n * x == n
    ensures x == 1
  {
    DivisionIsUnique(n, n, x, 0);
    DivisionIsUnique(n, n, 1, 0);
  }

  lemma {:induction false} SlicePerRound(counter: nat, n: nat, low: nat, high: nat)
    requires low <= high <= n && n > 0
    ensures SliceTurns(counter, n, n, low, high) == high - low
    decreases high
  {
    if low == high {
      OneMoreIndex(counter, n, n, low, low);
    } else {
      SlicePerRound(counter, n, low, high - 1);
      OneMoreIndex(counter, n, n, low, high - 1);
      OncePerRound(counter, n, high - 1);
    }
  }

  /** Shares by weight: while the weights stay, each VM is picked exactly its weight out of every total of consecutive picks. */
  lemma WeightedShares(vms: VMs, available: seq<Name>, counter: nat, i: nat)
    requires Connected(vms, available) && i < |available| && TotalWeight(vms, available) > 0
    ensures PicksOf(vms, available, counter, TotalWeight(vms, available), i) == Weight(vms[available[i]])
  {
    hide TotalWeight, Pick, Weight, SliceTurns, PicksOf;
    var total := TotalWeight(vms, available);
    SliceIsWeight(vms, available, i);
    PicksAreTurns(vms, available, counter, total, i);
    SlicePerRound(counter, total, TotalWeight(vms, available[..i]), TotalWeight(vms, available[..i + 1]));
  }
}
