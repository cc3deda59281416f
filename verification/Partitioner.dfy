/** ObjectId partitions of a collection for parallel copying. */
module Partitioner {
  import opened Common

  /** ObjectIds in their byte order. */
  type ObjectID = nat

  datatype Partition = Partition(
    id: nat, minID: Option<ObjectID>, maxID: Option<ObjectID>, isFirst: bool, isLast: bool, estCount: int)

  datatype PartitionConfig = PartitionConfig(targetPartitionSize: nat, maxPartitions: int, minPartitions: int)

  datatype Condition = GreaterThan(bound: ObjectID) | AtMost(bound: ObjectID)

  predicate Holds(condition: Condition, id: ObjectID) {
    match condition
    case GreaterThan(bound) => id > bound
    case AtMost(bound) => id <= bound
  }

  /** A filter accepts an id that meets all its conditions on `_id`. */
  predicate Accepts(filter: seq<Condition>, id: ObjectID) {
    forall k :: 0 <= k < |filter| ==> Holds(filter[k], id)
  }

  function BuildPartitionFilter(partition: Partition): (filter: seq<Condition>)
    ensures forall id: ObjectID :: Accepts(filter, id) <==>
              (partition.minID.Some? ==> partition.minID.value < id) && (partition.maxID.Some? ==> id <= partition.maxID.value)
  {
    var filter :=
      match (partition.minID, partition.maxID)
      case (Some(low), Some(high)) => [GreaterThan(low), AtMost(high)]
      case (Some(low), None) => [GreaterThan(low)]
      case (None, Some(high)) => [AtMost(high)]
      case (None, None) => [];
    assert |filter| > 0 ==> filter[0] == if partition.minID.Some? then GreaterThan(partition.minID.value) else AtMost(partition.maxID.value);
    assert |filter| > 1 ==> filter[1] == AtMost(partition.maxID.value);
    filter
  }

  /** Exactly one partition's filter accepts the id. */
  ghost predicate AcceptedOnce(partitions: seq<Partition>, id: ObjectID) {
    exists i :: AcceptedOnlyBy(partitions, id, i)
  }

  ghost predicate AcceptedBy(partitions: seq<Partition>, id: ObjectID, i: int) {
    0 <= i < |partitions| && Accepts(BuildPartitionFilter(partitions[i]), id)
  }

  ghost predicate AcceptedOnlyBy(partitions: seq<Partition>, id: ObjectID, i: int) {
    AcceptedBy(partitions, id, i) && forall j :: AcceptedBy(partitions, id, j) ==> j == i
  }

  predicate NumberedInOrder(partitions: seq<Partition>, total: nat) {
    forall i :: 0 <= i < |partitions| ==>
      && partitions[i].id == i && (partitions[i].isFirst <==> i == 0) && (partitions[i].isLast <==> i == total - 1)
  }

  /** Every ObjectId satisfies exactly one partition's filter. */
  ghost predicate ExactCover(partitions: seq<Partition>) {
    forall id: ObjectID :: AcceptedOnce(partitions, id)
  }

  predicate NonDecreasing(ids: seq<ObjectID>) {
    forall i, j :: 0 <= i < j < |ids| ==> ids[i] <= ids[j]
  }

  function TotalEstimate(partitions: seq<Partition>): int {
    if partitions == [] then 0 else TotalEstimate(partitions[..|partitions| - 1]) + partitions[|partitions| - 1].estCount
  }

  /** The boundaries cut the ids into consecutive half-open ranges, open at both ends. */
  ghost predicate CutAt(partitions: seq<Partition>, boundaries: seq<ObjectID>) {
    |partitions| == |boundaries| + 1 && CutUpTo(partitions, boundaries)
  }

  /** The partitions are the first ranges between the boundaries. */
  ghost predicate CutUpTo(partitions: seq<Partition>, boundaries: seq<ObjectID>) {
    && |partitions| <= |boundaries| + 1
    && forall i {:trigger partitions[i]} :: 0 <= i < |partitions| ==>
         && partitions[i].minID == (if i == 0 then None else Some(boundaries[i - 1]))
         && partitions[i].maxID == (if i == |boundaries| then None else Some(boundaries[i]))
  }

  lemma OneMorePartition(partitions: seq<Partition>, boundaries: seq<ObjectID>, p: Partition)
    requires CutUpTo(partitions, boundaries) && NumberedInOrder(partitions, |boundaries| + 1)
    requires |partitions| <= |boundaries|
    requires var i := |partitions|;
             && p.id == i && (p.isFirst <==> i == 0) && (p.isLast <==> i == |boundaries|)
             && p.minID == (if i == 0 then None else Some(boundaries[i - 1]))
             && p.maxID == (if i == |boundaries| then None else Some(boundaries[i]))
    ensures CutUpTo(partitions + [p], boundaries) && NumberedInOrder(partitions + [p], |boundaries| + 1)
    ensures TotalEstimate(partitions + [p]) == TotalEstimate(partitions) + p.estCount
  {
    hide CutUpTo, NumberedInOrder;
    OneMoreCut(partitions, boundaries, p);
    OneMoreNumber(partitions, |boundaries| + 1, p);
    assert (partitions + [p])[..|partitions|] == partitions;
  }

  lemma OneMoreCut(partitions: seq<Partition>, boundaries: seq<ObjectID>, p: Partition)
    requires CutUpTo(partitions, boundaries) && |partitions| <= |boundaries|
    requires var i := |partitions|;
             && p.minID == (if i == 0 then None else Some(boundaries[i - 1]))
             && p.maxID == (if i == |boundaries| then None else Some(boundaries[i]))
    ensures CutUpTo(partitions + [p], boundaries)
  {
    var more := partitions + [p];
    forall i | 0 <= i < |more|
      ensures more[i].minID == (if i == 0 then None else Some(boundaries[i - 1]))
      ensures more[i].maxID == (if i == |boundaries| then None else Some(boundaries[i]))
    {
      assert more[i] == if i < |partitions| then partitions[i] else p;
    }
  }

  lemma OneMoreNumber(partitions: seq<Partition>, count: nat, p: Partition)
    requires NumberedInOrder(partitions, count)
    requires p.id == |partitions| && (p.isFirst <==> p.id == 0) && (p.isLast <==> p.id == count - 1)
    ensures NumberedInOrder(partitions + [p], count)
  {
  }

  lemma NoPartitions(boundaries: seq<ObjectID>)
    ensures CutUpTo([], boundaries) && NumberedInOrder([], |boundaries| + 1) && TotalEstimate([]) == 0
  {
  }

  // ---------- covers ----------

  /** Whether boundary `i` lies below the id; before the first one, every id is above. */
  ghost predicate Above(boundaries: seq<ObjectID>, id: ObjectID, i: int)
    requires -1 <= i <= |boundaries|
  {
    i == -1 || (i < |boundaries| && boundaries[i] < id)
  }

  lemma AcceptedWhereItDescends(partitions: seq<Partition>, boundaries: seq<ObjectID>, id: ObjectID, i: nat)
    requires CutAt(partitions, boundaries) && i < |partitions|
    ensures AcceptedBy(partitions, id, i) <==> Above(boundaries, id, i - 1) && !Above(boundaries, id, i)
  {
  }

  /** Between an index the id is above and a later one it is not, some partition accepts it. */
  lemma {:induction false} SomePartitionAccepts(
      partitions: seq<Partition>, boundaries: seq<ObjectID>, id: ObjectID, low: int, high: int) returns (i: nat)
    requires CutAt(partitions, boundaries) && -1 <= low < high <= |boundaries|
    requires Above(boundaries, id, low) && !Above(boundaries, id, high)
    ensures low < i <= high && AcceptedBy(partitions, id, i)
    decreases high - low
  {
    if Above(boundaries, id, low + 1) {
      i := SomePartitionAccepts(partitions, boundaries, id, low + 1, high);
    } else {
      i := low + 1;
      AcceptedWhereItDescends(partitions, boundaries, id, i);
    }
  }

  /** Ranges always cover every id, whatever the order of the boundaries. */
  lemma EveryIdIsCovered(partitions: seq<Partition>, boundaries: seq<ObjectID>, id: ObjectID)
    requires CutAt(partitions, boundaries)
    ensures exists i :: AcceptedBy(partitions, id, i)
  {
    var i := SomePartitionAccepts(partitions, boundaries, id, -1, |boundaries|);
  }

  /** The cover is exact if and only if the boundaries never decrease; they may repeat. */
  lemma ExactIffNonDecreasing(partitions: seq<Partition>, boundaries: seq<ObjectID>)
    requires CutAt(partitions, boundaries)
    ensures ExactCover(partitions) <==> NonDecreasing(boundaries)
  {
    if NonDecreasing(boundaries) {
      forall id: ObjectID ensures AcceptedOnce(partitions, id) {
        OnceWhenSorted(partitions, boundaries, id);
      }
    } else {
      var i, j :| 0 <= i < j < |boundaries| && boundaries[i] > boundaries[j];
      var id := boundaries[i];
      var first := SomePartitionAccepts(partitions, boundaries, id, -1, i);
      var second := SomePartitionAccepts(partitions, boundaries, id, j, |boundaries|);
      assert !AcceptedOnce(partitions, id);
    }
  }

  lemma OnceWhenSorted(partitions: seq<Partition>, boundaries: seq<ObjectID>, id: ObjectID)
    requires CutAt(partitions, boundaries) && NonDecreasing(boundaries)
    ensures AcceptedOnce(partitions, id)
  {
    var i := SomePartitionAccepts(partitions, boundaries, id, -1, |boundaries|);
    forall j | AcceptedBy(partitions, id, j) ensures j == i {
      AcceptedWhereItDescends(partitions, boundaries, id, i);
      AcceptedWhereItDescends(partitions, boundaries, id, j);
    }
    assert AcceptedOnlyBy(partitions, id, i);
  }

  // ---------- the partitioner ----------

  /** The sample that becomes boundary `i`; with fewer samples than partitions always the first one. */
  function SampleIndex(i: nat, samples: nat, num: nat): nat
    requires num > 0
  {
    (i + 1) * (samples / num)
  }

  lemma StepOrder(a: nat, b: nat, step: nat)
    requires a <= b
    ensures a * step <= b * step
    ensures a < b ==> a * step + step <= b * step
  {
    assert b * step == a * step + (b - a) * step;
    if a < b {
      assert (b - a) * step == (b - a - 1) * step + step;
    }
  }

  lemma Quotient(a: nat, n: nat)
    requires n > 0
    ensures n * (a / n) <= a
  {
  }

  lemma AtLeastOnce(totalCount: nat, size: nat)
    requires 0 < size < totalCount
    ensures totalCount / size >= 1
  {
    assert totalCount == size * (totalCount / size) + totalCount % size;
  }

  /** The index never leaves the samples and grows with `i`. */
  lemma SampleIndexInRange(i: nat, j: nat, samples: nat, num: nat)
    requires i <= j && j + 1 < num && samples > 0
    ensures SampleIndex(i, samples, num) <= SampleIndex(j, samples, num) < samples
  {
    var step := samples / num;
    Quotient(samples, num);
    StepOrder(i + 1, j + 1, step);
    StepOrder(j + 1, num, step);
  }

  /** The documents estimated for the first `i` partitions. */
  function Shares(i: nat, totalCount: nat, num: nat): nat
    requires num > 0
  {
    i * (totalCount / num)
  }

  lemma OneMoreShare(i: nat, totalCount: nat, num: nat)
    requires num > 0
    ensures Shares(0, totalCount, num) == 0
    ensures Shares(i + 1, totalCount, num) == Shares(i, totalCount, num) + totalCount / num
  {
  }

  /** The boundaries are the samples at every step-th place, after the first. */
  predicate SpreadOver(boundaries: seq<ObjectID>, samples: seq<ObjectID>, num: nat) {
    && 0 < num == |boundaries| + 1
    && forall i {:trigger boundaries[i]} :: 0 <= i < |boundaries| ==>
         var idx := SampleIndex(i, |samples|, num);
         idx < |samples| && boundaries[i] == samples[idx]
  }

  predicate Rises(ids: seq<ObjectID>) {
    forall i, j :: 0 <= i < j < |ids| ==> ids[i] < ids[j]
  }

  /**
   * How the samples fall: of distinct sorted ones the first partition gets one more than the step, each
   * following one exactly the step and the last the rest, where the step is their number over that of the
   * partitions; so with fewer samples than partitions all but the first and the last get none.
   */
  lemma SamplesFallEvenly(partitions: seq<Partition>, boundaries: seq<ObjectID>, samples: seq<ObjectID>, k: nat, p: nat)
    requires CutAt(partitions, boundaries) && SpreadOver(boundaries, samples, |partitions|) && Rises(samples)
    requires k < |samples| && p < |partitions|
    ensures var step := |samples| / |partitions|;
            AcceptedBy(partitions, samples[k], p) <==>
            (p > 0 ==> p * step < k) && (p < |partitions| - 1 ==> k <= p * step + step)
  {
    hide CutAt, Rises, SpreadOver, AcceptedBy;
    AcceptedWhereItDescends(partitions, boundaries, samples[k], p);
    assert |partitions| == |boundaries| + 1 by { SpreadNumber(boundaries, samples, |partitions|); }
    if p > 0 {
      AboveIff(boundaries, samples, |partitions|, p - 1, k);
      NextStep(p - 1, |samples| / |partitions|);
    }
    if p < |partitions| - 1 {
      AboveIff(boundaries, samples, |partitions|, p, k);
    }
  }

  lemma SpreadNumber(boundaries: seq<ObjectID>, samples: seq<ObjectID>, num: nat)
    requires SpreadOver(boundaries, samples, num)
    ensures num == |boundaries| + 1
  {
  }

  lemma AboveIff(boundaries: seq<ObjectID>, samples: seq<ObjectID>, num: nat, i: nat, k: nat)
    requires SpreadOver(boundaries, samples, num) && Rises(samples) && i < |boundaries| && k < |samples|
    ensures var step := |samples| / num; Above(boundaries, samples[k], i) <==> i * step + step < k
  {
    hide Rises, SpreadOver, SampleIndex;
    BoundaryAt(boundaries, samples, num, i);
    IndexIs(i, |samples|, num);
    RisesStrictly(samples, SampleIndex(i, |samples|, num), k);
  }

  lemma BoundaryAt(boundaries: seq<ObjectID>, samples: seq<ObjectID>, num: nat, i: nat)
    requires SpreadOver(boundaries, samples, num) && i < |boundaries|
    ensures num > 0 && SampleIndex(i, |samples|, num) < |samples| && boundaries[i] == samples[SampleIndex(i, |samples|, num)]
  {
    hide SampleIndex;
    var boundary := boundaries[i];
  }

  lemma IndexIs(i: nat, samples: nat, num: nat)
    requires num > 0
    ensures SampleIndex(i, samples, num) == i * (samples / num) + samples / num
  {
    NextStep(i, samples / num);
  }

  lemma NextStep(p: nat, step: nat)
    ensures (p + 1) * step == p * step + step
  {
  }

  lemma RisesStrictly(samples: seq<ObjectID>, i: nat, k: nat)
    requires Rises(samples) && i < |samples| && k < |samples|
    ensures samples[i] < samples[k] <==> i < k
  {
    if k < i {
      assert samples[k] < samples[i];
    }
  }

  class Partitioner {
    const config: PartitionConfig

    constructor (config: PartitionConfig)
      ensures this.config == config
    {
      this.config := config;
    }

    /** Boundaries from the sorted samples at every `step`-th index; fails without samples. */
    method GetObjectIdBoundaries(samples: seq<ObjectID>, numPartitions: nat) returns (boundaries: Option<seq<ObjectID>>)
      requires numPartitions >= 1
      ensures boundaries.None? <==> samples == []
      ensures samples != [] ==>
        && |boundaries.value| == numPartitions - 1
        && (NonDecreasing(samples) ==> NonDecreasing(boundaries.value))
        && SpreadOver(boundaries.value, samples, numPartitions)
    {
      hide SampleIndex;
      if |samples| == 0 {
        return None;
      }
      var result: seq<ObjectID> := [];
      for i := 0 to numPartitions - 1
        invariant |result| == i
        invariant forall k :: 0 <= k < i ==>
          var idx := SampleIndex(k, |samples|, numPartitions);
          idx < |samples| && result[k] == samples[idx]
      {
        var idx := SampleIndex(i, |samples|, numPartitions);
        SampleIndexInRange(i, i, |samples|, numPartitions);
        if idx >= |samples| {
          idx := |samples| - 1;
        }
        result := result + [samples[idx]];
      }
      boundaries := Some(result);
      if NonDecreasing(samples) {
        forall i, j | 0 <= i < j < |result| ensures result[i] <= result[j] {
          SampleIndexInRange(i, j, |samples|, numPartitions);
        }
      }
    }

    /** Partitions between the boundaries; the last one gets the remainder of the count. */
    method Cut(totalCount: nat, boundaries: seq<ObjectID>) returns (partitions: seq<Partition>)
      ensures CutAt(partitions, boundaries) && NumberedInOrder(partitions, |partitions|)
      ensures TotalEstimate(partitions) == totalCount
      ensures forall i :: 0 <= i < |partitions| - 1 ==> partitions[i].estCount == totalCount / |partitions|
    {
      hide Shares, CutUpTo, NumberedInOrder, TotalEstimate;
      var numPartitions := |boundaries| + 1;
      var share := totalCount / numPartitions;
      partitions := [];
      NoPartitions(boundaries);
      OneMoreShare(0, totalCount, numPartitions);
      for i := 0 to numPartitions
        invariant |partitions| == i && CutUpTo(partitions, boundaries) && NumberedInOrder(partitions, numPartitions)
        invariant forall k :: 0 <= k < i && k < numPartitions - 1 ==> partitions[k].estCount == share
        invariant TotalEstimate(partitions) ==
          if i < numPartitions then Shares(i, totalCount, numPartitions) else totalCount
      {
        OneMoreShare(i, totalCount, numPartitions);
        var estCount: int := share;
        if i == numPartitions - 1 {
          estCount := totalCount - Shares(i, totalCount, numPartitions);
        }
        var partition := Partition(
          i,
          if i > 0 then Some(boundaries[i - 1]) else None,
          if i < numPartitions - 1 then Some(boundaries[i]) else None,
          i == 0, i == numPartitions - 1, estCount);
        OneMorePartition(partitions, boundaries, partition);
        partitions := partitions + [partition];
      }
    }

    /** Cuts a collection of `totalCount` documents; `samples` is what sampling its ids returned. */
    method CreatePartitions(totalCount: nat, samples: seq<ObjectID>) returns (partitions: Option<seq<Partition>>)
      requires config.targetPartitionSize > 0 && (config.minPartitions >= 1 || config.maxPartitions >= 1)
      ensures partitions.None? <==> totalCount > config.targetPartitionSize && samples == []
      ensures partitions.Some? ==> TotalEstimate(partitions.value) == totalCount && |partitions.value| >= 1
      ensures partitions.Some? ==> NumberedInOrder(partitions.value, |partitions.value|)
      ensures partitions.Some? && NonDecreasing(samples) ==> ExactCover(partitions.value)
      ensures partitions.Some? && totalCount > config.targetPartitionSize ==>
        |partitions.value| ==
          Max(config.minPartitions, Min(config.maxPartitions, totalCount / config.targetPartitionSize))
      ensures partitions.Some? && totalCount > config.targetPartitionSize ==>
        exists boundaries :: CutAt(partitions.value, boundaries) && SpreadOver(boundaries, samples, |partitions.value|)
      ensures partitions.Some? && totalCount <= config.targetPartitionSize ==>
        partitions.value == [Partition(0, None, None, true, true, totalCount)]
      ensures partitions.Some? ==>
        forall i :: 0 <= i < |partitions.value| - 1 ==> partitions.value[i].estCount == totalCount / |partitions.value|
    {
      if totalCount <= config.targetPartitionSize {
        var whole := Partition(0, None, None, true, true, totalCount);
        assert CutAt([whole], []) && TotalEstimate([whole][..0]) == 0;
        ExactIffNonDecreasing([whole], []);
        return Some([whole]);
      }
      AtLeastOnce(totalCount, config.targetPartitionSize);
      var numPartitions: int := totalCount / config.targetPartitionSize;
      if numPartitions > config.maxPartitions {
        numPartitions := config.maxPartitions;
      }
      if numPartitions < config.minPartitions {
        numPartitions := config.minPartitions;
      }
      var boundaries := GetObjectIdBoundaries(samples, numPartitions);
      if boundaries.None? {
        return None;
      }
      var result := Cut(totalCount, boundaries.value);
      assert SpreadOver(boundaries.value, samples, |result|);
      ExactIffNonDecreasing(result, boundaries.value);
      partitions := Some(result);
    }
  }
}
