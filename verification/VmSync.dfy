/**
 * The VM side of incremental sync: a batch of wire documents is split into upserts and delete
 * markers, the upserts are written in chunks, then the deletes are written in chunks.
 */
module VmSync {
  import opened Common
  import opened Documents
  import opened ChangeLog

  const BATCH_SIZE: nat := 1000

  const OPERATION := "_operation"
  const DOCUMENT_KEY := "_documentKey"

  /** What `processIncrementalData` takes a wire document for. */
  datatype Kind =
    | Regular
    | DeleteMarker(key: Value)
    | InvalidMarker
    | Metadata
    | Drop
    | Invalidate

  function DeleteKind(doc: Document): Kind {
    if DOCUMENT_KEY in doc && doc[DOCUMENT_KEY].Doc? then
      if ID in doc[DOCUMENT_KEY].fields then DeleteMarker(doc[DOCUMENT_KEY].fields[ID]) else InvalidMarker
    else InvalidMarker
  }

  function Classify(doc: Document): Kind {
    if OPERATION in doc && doc[OPERATION].Str? then
      match doc[OPERATION].s
      case "delete" => DeleteKind(doc)
      case "drop" => Drop
      case "rename" => Metadata
      case "dropDatabase" => Drop
      case "createIndexes" => Metadata
      case "dropIndexes" => Metadata
      case "modify" => Metadata
      case "invalidate" => Invalidate
      case _ => Regular
    else Regular
  }

  /** The document makes the VM side drop the collection, or drop and fetch it anew. */
  predicate Wipes(doc: Document) {
    Classify(doc).Drop? || Classify(doc).Invalidate?
  }

  predicate Harmless(docs: seq<Document>) {
    forall d :: d in docs ==> !Wipes(d)
  }

  /** What handling the marker at each place of a batch leaves of the collection; `None` where it fails. */
  type Leftovers = nat -> Option<Collection>

  /** The collection after the markers of a batch have been handled. */
  function Wiped(c: Collection, docs: seq<Document>, left: Leftovers): Collection {
    if docs == [] then c
    else
      var n := |docs| - 1;
      var before := Wiped(c, docs[..n], left);
      if !Wipes(docs[n]) || left(n).None? then before
      else if Classify(docs[n]).Drop? then map[]
      else left(n).value
  }

  lemma {:induction false} HarmlessLeavesAll(c: Collection, docs: seq<Document>, left: Leftovers)
    requires Harmless(docs)
    ensures Wiped(c, docs, left) == c
  {
    if docs != [] {
      HarmlessLeavesAll(c, docs[..|docs| - 1], left);
    }
  }

  /** The upserts a list of regular documents stands for; a document without `_id` is skipped. */
  function Upserts(docs: seq<Document>): seq<Write> {
    if docs == [] then []
    else
      var d := docs[|docs| - 1];
      Upserts(docs[..|docs| - 1]) + if ID in d then [Put(d[ID], d)] else []
  }

  function Deletes(keys: seq<Value>): seq<Write> {
    seq(|keys|, i requires 0 <= i < |keys| => Remove(keys[i]))
  }

  function RegularDocs(docs: seq<Document>): seq<Document> {
    if docs == [] then []
    else
      var d := docs[|docs| - 1];
      RegularDocs(docs[..|docs| - 1]) + if Classify(d).Regular? then [d] else []
  }

  function DeletedKeys(docs: seq<Document>): seq<Value> {
    if docs == [] then []
    else
      var d := docs[|docs| - 1];
      DeletedKeys(docs[..|docs| - 1]) + if Classify(d).DeleteMarker? then [Classify(d).key] else []
  }

  /** How many documents the first `k` chunks hold. */
  function ChunkEnd(k: nat, n: nat): (end: nat)
    ensures end <= n
  {
    if k * BATCH_SIZE < n then k * BATCH_SIZE else n
  }

  function ChunkCount(n: nat): nat {
    (n + BATCH_SIZE - 1) / BATCH_SIZE
  }

  /** The upserts of the first `k` chunks of documents. */
  function UpsertChunks(docs: seq<Document>, k: nat): (chunks: seq<seq<Write>>)
    ensures |chunks| == k
  {
    if k == 0 then []
    else UpsertChunks(docs, k - 1) + [Upserts(docs[ChunkEnd(k - 1, |docs|)..ChunkEnd(k, |docs|)])]
  }

  /** The first `k` chunks of deletes. */
  function DeleteChunks(keys: seq<Value>, k: nat): (chunks: seq<seq<Write>>)
    ensures |chunks| == k
  {
    if k == 0 then []
    else DeleteChunks(keys, k - 1) + [Deletes(keys[ChunkEnd(k - 1, |keys|)..ChunkEnd(k, |keys|)])]
  }

  /** The bulk writes of deletes that the keys of a batch are cut into. */
  function AllDeleteChunks(keys: seq<Value>): seq<seq<Write>> {
    DeleteChunks(keys, ChunkCount(|keys|))
  }

  /** The bulk writes of upserts that a batch of regular documents is cut into. */
  function AllUpsertChunks(docs: seq<Document>): seq<seq<Write>> {
    UpsertChunks(docs, ChunkCount(|docs|))
  }

  /** All writes of one batch in the order the VM side performs them. */
  function BatchWrites(docs: seq<Document>): seq<Write> {
    Upserts(RegularDocs(docs)) + Deletes(DeletedKeys(docs))
  }

  lemma {:induction false} UpsertsAppend(a: seq<Document>, b: seq<Document>)
    ensures Upserts(a + b) == Upserts(a) + Upserts(b)
  {
    if b == [] {
      assert a + b == a;
    } else {
      assert (a + b)[..|a + b| - 1] == a + b[..|b| - 1];
      UpsertsAppend(a, b[..|b| - 1]);
    }
  }

  /** Where a bulk write goes wrong: at which chunk, and which of its writes still took effect. */
  datatype Fault = NoFault | FaultAt(chunk: nat, applied: set<nat>)

  function Masked(ws: seq<Write>, applied: set<nat>): seq<Write> {
    if ws == [] then []
    else Masked(ws[..|ws| - 1], applied) + if |ws| - 1 in applied then [ws[|ws| - 1]] else []
  }

  /** Some of the writes, each at most as often as in `ws`, in any order. */
  ghost predicate PartOf(part: seq<Write>, ws: seq<Write>) {
    multiset(part) <= multiset(ws)
  }

  lemma MaskedStep(ws: seq<Write>, i: nat, applied: set<nat>)
    requires i < |ws|
    ensures ws[..i + 1] == ws[..i] + [ws[i]]
    ensures Masked(ws[..i + 1], applied) == if i in applied then Masked(ws[..i], applied) + [ws[i]] else Masked(ws[..i], applied)
  {
    assert ws[..i + 1][..i] == ws[..i];
    assert Masked(ws[..i], applied) + [] == Masked(ws[..i], applied);
  }

  lemma ApplyOne(docs: Collection, ws: seq<Write>, w: Write)
    ensures Apply(docs, ws + [w]) == Apply1(Apply(docs, ws), w)
  {
    assert (ws + [w])[..|ws|] == ws;
  }

  lemma {:induction false} MaskedIsPart(ws: seq<Write>, applied: set<nat>)
    ensures PartOf(Masked(ws, applied), ws)
  {
    if ws != [] {
      MaskedIsPart(ws[..|ws| - 1], applied);
      assert ws == ws[..|ws| - 1] + [ws[|ws| - 1]];
    }
  }

  /** The fault hits one of the bulk writes; an empty chunk is not written at all. */
  predicate Strikes(fault: Fault, chunks: seq<seq<Write>>) {
    fault.FaultAt? && fault.chunk < |chunks| && chunks[fault.chunk] != []
  }

  /** The chunks before `k` were written, chunk `k` in part, and none after it. */
  ghost predicate StoppedAt(chunks: seq<seq<Write>>, k: nat, performed: seq<Write>) {
    && k < |chunks|
    && exists done, part :: performed == done + part && InChunks(chunks[..k], done) && PartOf(part, chunks[k])
  }

  /** Whole chunks followed by part of the next one are part of the batch. */
  lemma PartOfBatch(whole: seq<Write>, chunk: seq<Write>, rest: seq<Write>, done: seq<Write>, part: seq<Write>)
    requires Reordering(whole, done) && PartOf(part, chunk)
    ensures PartOf(done + part, whole + chunk + rest)
  {
  }

  /** The order in which the database executes an unordered bulk write, chunk by chunk. */
  type Order = (nat, seq<Write>) -> seq<Write>

  ghost predicate Reorders(order: Order) {
    forall chunk: nat, ws: seq<Write> :: Reordering(ws, order(chunk, ws))
  }

  predicate UpsertsFail(documents: seq<Document>, fault: Fault) {
    Strikes(fault, AllUpsertChunks(RegularDocs(documents)))
  }

  predicate DeletesFail(documents: seq<Document>, fault: Fault) {
    Strikes(fault, AllDeleteChunks(DeletedKeys(documents)))
  }

  /** All upserts were executed, and the deletes up to part of chunk `k`. */
  ghost predicate StoppedInDeletes(documents: seq<Document>, k: nat, performed: seq<Write>) {
    exists first, second ::
      && performed == first + second && InChunks(AllUpsertChunks(RegularDocs(documents)), first)
      && StoppedAt(AllDeleteChunks(DeletedKeys(documents)), k, second)
  }

  lemma StoppedLate(documents: seq<Document>, k: nat, first: seq<Write>, second: seq<Write>)
    requires InChunks(AllUpsertChunks(RegularDocs(documents)), first)
    requires StoppedAt(AllDeleteChunks(DeletedKeys(documents)), k, second)
    ensures StoppedInDeletes(documents, k, first + second)
  {
  }

  /** One target collection, with the operations of the VM side on it. */
  class TargetCollection {
    var docs: Collection

    constructor (docs: Collection)
      ensures this.docs == docs
    {
      this.docs := docs;
    }

    /** The database's unordered bulk write, executed as `ops`; on an error, those in `applied` were performed. */
    method BulkWrite(ops: seq<Write>, fails: bool, applied: set<nat>) returns (ok: bool)
      modifies this
      ensures ok <==> !fails
      ensures docs == Apply(old(docs), if ok then ops else Masked(ops, applied))
    {
      for i := 0 to |ops|
        invariant docs == Apply(old(docs), if !fails then ops[..i] else Masked(ops[..i], applied))
      {
        MaskedStep(ops, i, applied);
        if !fails || i in applied {
          ApplyOne(old(docs), if fails then Masked(ops[..i], applied) else ops[..i], ops[i]);
          docs := Apply1(docs, ops[i]);
        }
      }
      assert ops[..|ops|] == ops;
      ok := !fails;
    }

    /** One chunk, in the order the database chooses; `performed` is what it has done. */
    method WriteChunk(ops: seq<Write>, chunk: nat, order: Order, fault: Fault) returns (ok: bool, ghost performed: seq<Write>)
      requires Reorders(order)
      modifies this
      ensures docs == Apply(old(docs), performed)
      ensures if ok then Reordering(ops, performed) else PartOf(performed, ops)
      ensures ok <==> !(fault.FaultAt? && fault.chunk == chunk)
    {
      var fails := fault.FaultAt? && fault.chunk == chunk;
      ok := BulkWrite(order(chunk, ops), fails, if fails then fault.applied else {});
      performed := order(chunk, ops);
      if !ok {
        MaskedIsPart(performed, fault.applied);
        performed := Masked(performed, fault.applied);
      }
    }

    /** The replace-with-upsert models of one chunk. */
    method UpsertModels(documents: seq<Document>, start: nat, end: nat) returns (bulkOps: seq<Write>)
      requires start <= end <= |documents|
      ensures bulkOps == Upserts(documents[start..end])
    {
      bulkOps := [];
      for j := start to end
        invariant bulkOps == Upserts(documents[start..j])
      {
        assert documents[start..j + 1][..j - start] == documents[start..j];
        if ID in documents[j] {
          bulkOps := bulkOps + [Put(documents[j][ID], documents[j])];
        }
      }
    }

    /** Upserts `documents` chunk by chunk; stops at the first chunk that reports an error. */
    method InsertDocumentsBatch(documents: seq<Document>, order: Order, fault: Fault)
      returns (ok: bool, ghost performed: seq<Write>)
      requires Reorders(order)
      modifies this
      ensures docs == Apply(old(docs), performed)
      ensures if ok then InChunks(AllUpsertChunks(documents), performed) else PartOf(performed, Upserts(documents))
      ensures ok <==> !Strikes(fault, AllUpsertChunks(documents))
      ensures !ok ==> StoppedAt(AllUpsertChunks(documents), fault.chunk, performed)
    {
      hide Reorders, Apply, Upserts, InChunks, ChunkEnd, ChunkCount, UpsertChunks, Reordering, PartOf;
      var i, chunk := 0, 0;
      performed := [];
      ApplyNothing(docs);
      NoChunks(documents);
      while i < |documents|
        invariant i == ChunkEnd(chunk, |documents|)
        invariant chunk > 0 ==> ChunkEnd(chunk - 1, |documents|) < |documents|
        invariant docs == Apply(old(docs), performed) && InChunks(UpsertChunks(documents, chunk), performed)
        invariant !Strikes(fault, UpsertChunks(documents, chunk))
        decreases |documents| - i
      {
        var end := if i + BATCH_SIZE > |documents| then |documents| else i + BATCH_SIZE;
        NextChunk(documents, chunk);
        ChunkOfAll(documents, chunk);
        var bulkOps := UpsertModels(documents, i, end);
        ghost var more: seq<Write> := [];
        if |bulkOps| > 0 {
          ok, more := WriteChunk(bulkOps, chunk, order, fault);
          ApplyAppend(old(docs), performed, more);
          if !ok {
            PartOfDocuments(documents, chunk, performed, more);
            Stopped(AllUpsertChunks(documents), chunk, performed, more);
            performed := performed + more;
            return;
          }
        } else {
          EmptyChunk(bulkOps);
          assert performed + more == performed;
        }
        InChunksAppend(UpsertChunks(documents, chunk), performed, bulkOps, more);
        performed := performed + more;
        i := end;
        chunk := chunk + 1;
      }
      LastChunkEnds(|documents|, chunk);
      ok := true;
    }

    /** The delete models of one chunk. */
    method DeleteModels(documentKeys: seq<Value>, start: nat, end: nat) returns (bulkOps: seq<Write>)
      requires start <= end <= |documentKeys|
      ensures |Deletes(documentKeys)| == |documentKeys| && bulkOps == Deletes(documentKeys)[start..end]
    {
      bulkOps := [];
      for j := start to end
        invariant bulkOps == Deletes(documentKeys)[start..j]
      {
        bulkOps := bulkOps + [Remove(documentKeys[j])];
      }
    }

    /** Deletes by document key chunk by chunk; stops at the first chunk that reports an error. */
    method DeleteDocumentsBatch(documentKeys: seq<Value>, order: Order, fault: Fault)
      returns (ok: bool, ghost performed: seq<Write>)
      requires Reorders(order)
      modifies this
      ensures docs == Apply(old(docs), performed)
      ensures if ok then Reordering(Deletes(documentKeys), performed) else PartOf(performed, Deletes(documentKeys))
      ensures ok <==> !Strikes(fault, AllDeleteChunks(documentKeys))
      ensures if ok then InChunks(AllDeleteChunks(documentKeys), performed)
              else StoppedAt(AllDeleteChunks(documentKeys), fault.chunk, performed)
    {
      hide Reorders, Apply, InChunks, ChunkEnd, ChunkCount, DeleteChunks, Reordering, PartOf, Deletes, StoppedAt;
      SameLength(documentKeys);
      var i, chunk := 0, 0;
      performed := [];
      ApplyNothing(docs);
      ghost var ws := Deletes(documentKeys);
      NoDeleteChunks(documentKeys);
      while i < |documentKeys|
        invariant 0 <= i == ChunkEnd(chunk, |documentKeys|)
        invariant chunk > 0 ==> ChunkEnd(chunk - 1, |documentKeys|) < |documentKeys|
        invariant docs == Apply(old(docs), performed) && Reordering(ws[..i], performed)
        invariant InChunks(DeleteChunks(documentKeys, chunk), performed)
        invariant !Strikes(fault, DeleteChunks(documentKeys, chunk))
        decreases |documentKeys| - i
      {
        NextDeletes(documentKeys, chunk);
        var end := if i + BATCH_SIZE > |documentKeys| then |documentKeys| else i + BATCH_SIZE;
        var bulkOps := DeleteModels(documentKeys, i, end);
        ghost var more;
        ok, more := WriteChunk(bulkOps, chunk, order, fault);
        ApplyAppend(old(docs), performed, more);
        DeletedSoFar(ws, i, end, performed, more);
        if !ok {
          Stopped(AllDeleteChunks(documentKeys), chunk, performed, more);
          performed := performed + more;
          return;
        }
        InChunksAppend(DeleteChunks(documentKeys, chunk), performed, bulkOps, more);
        performed := performed + more;
        i := end;
        chunk := chunk + 1;
      }
      LastChunkEnds(|documentKeys|, chunk);
      assert ws[..|documentKeys|] == ws;
      ok := true;
    }

    /** Splits a batch by operation type, handling its markers on the way. */
    method SplitByOperation(documents: seq<Document>, left: Leftovers)
      returns (regularDocs: seq<Document>, deleteOperations: seq<Value>)
      modifies this
      ensures regularDocs == RegularDocs(documents) && deleteOperations == DeletedKeys(documents)
      ensures docs == Wiped(old(docs), documents, left)
    {
      regularDocs, deleteOperations := [], [];
      for i := 0 to |documents|
        invariant regularDocs == RegularDocs(documents[..i])
        invariant deleteOperations == DeletedKeys(documents[..i])
        invariant docs == Wiped(old(docs), documents[..i], left)
      {
        assert documents[..i + 1][..i] == documents[..i];
        match Classify(documents[i])
        case Regular => regularDocs := regularDocs + [documents[i]];
        case DeleteMarker(key) => deleteOperations := deleteOperations + [key];
        case InvalidMarker =>
        case Metadata =>
        case Drop =>
          if left(i).Some? {
            docs := map[];
          }
        case Invalidate =>
          if left(i).Some? {
            docs := left(i).value;
          }
      }
      assert documents[..|documents|] == documents;
    }

    /** Splits a batch, applies its upserts, then its deletes; an error stops it where it occurs. */
    method ProcessIncrementalData(documents: seq<Document>, left: Leftovers, order: Order, upsertFault: Fault, deleteFault: Fault)
      returns (ok: bool, ghost performed: seq<Write>)
      requires Reorders(order)
      modifies this
      ensures docs == Apply(Wiped(old(docs), documents, left), performed)
      ensures ok ==> Executed(AllUpsertChunks(RegularDocs(documents)), Deletes(DeletedKeys(documents)), performed)
      ensures !ok ==> PartOf(performed, BatchWrites(documents))
      ensures ok <==> !UpsertsFail(documents, upsertFault) && !DeletesFail(documents, deleteFault)
      ensures UpsertsFail(documents, upsertFault) ==>
        StoppedAt(AllUpsertChunks(RegularDocs(documents)), upsertFault.chunk, performed)
      ensures !UpsertsFail(documents, upsertFault) && DeletesFail(documents, deleteFault) ==>
        StoppedInDeletes(documents, deleteFault.chunk, performed)
    {
      hide Reorders, Apply, Upserts, UpsertChunks, DeleteChunks, ChunkCount, InChunks, StoppedAt;
      hide PartOf, Reordering, Executed, StoppedInDeletes, Deletes;
      var regularDocs, deleteOperations := SplitByOperation(documents, left);
      ghost var base, ups, dels, more := docs, Upserts(regularDocs), Deletes(deleteOperations), [];
      performed := [];
      ApplyNothing(docs);
      NoChunks(regularDocs);
      NoDeleteChunks(deleteOperations);
      if |regularDocs| > 0 {
        ok, performed := InsertDocumentsBatch(regularDocs, order, upsertFault);
        if !ok {
          PartOfBatch([], ups, dels, [], performed);
          assert [] + performed == performed && [] + ups == ups;
          return;
        }
      }
      if |deleteOperations| > 0 {
        ok, more := DeleteDocumentsBatch(deleteOperations, order, deleteFault);
        ApplyAppend(base, performed, more);
        if !ok {
          InChunksReorders(AllUpsertChunks(regularDocs), performed);
          AllChunks(regularDocs);
          PartOfBatch(ups, dels, [], performed, more);
          assert ups + dels + [] == ups + dels;
          StoppedLate(documents, deleteFault.chunk, performed, more);
          performed := performed + more;
          return;
        }
      } else {
        NothingToDelete(deleteOperations);
        assert performed + more == performed;
      }
      ExecutedInPhases(AllUpsertChunks(regularDocs), dels, performed, more);
      performed := performed + more;
      ok := true;
    }
  }

  /**
   * The markers of a batch are handled before any of its writes: a key that the batch writes ends as if it
   * held no marker, wherever in the batch the marker stands.
   */
  lemma MarkersComeFirst(c: Collection, docs: seq<Document>, left: Leftovers, performed: seq<Write>, key: Value)
    requires LastWrite(performed, key).Some?
    ensures Get(Apply(Wiped(c, docs, left), performed), key) == Get(Apply(c, performed), key)
  {
    LastWriteWins(Wiped(c, docs, left), performed, key);
    LastWriteWins(c, performed, key);
  }

  /** The operation a document names, if it names one. */
  function Named(doc: Document): string {
    if OPERATION in doc && doc[OPERATION].Str? then doc[OPERATION].s else ""
  }

  predicate NamesDrop(doc: Document) {
    Named(doc) == "drop" || Named(doc) == "dropDatabase"
  }

  /** Renames and index operations, of which the VM side makes nothing. */
  predicate NamesMetadata(doc: Document) {
    Named(doc) == "rename" || Named(doc) == "createIndexes" || Named(doc) == "dropIndexes" || Named(doc) == "modify"
  }

  /** The key of the document to delete, if the marker has one. */
  function MarkedKey(doc: Document): Option<Value> {
    if DOCUMENT_KEY in doc && doc[DOCUMENT_KEY].Doc? && ID in doc[DOCUMENT_KEY].fields
    then Some(doc[DOCUMENT_KEY].fields[ID]) else None
  }

  /**
   * What a document alone in a batch does, by the operation it names: drops and invalidations replace the
   * collection, a delete with an `_id` in its key deletes, renames and index operations do nothing, and every
   * other name, or none, upserts the document by its own `_id`.
   */
  lemma OperationMeans(c: Collection, doc: Document, left: Leftovers)
    ensures Wiped(c, [doc], left) ==
            if left(0).None? then c else if NamesDrop(doc) then map[] else if Named(doc) == "invalidate" then left(0).value else c
    ensures BatchWrites([doc]) ==
            if Named(doc) == "delete" then (if MarkedKey(doc).Some? then [Remove(MarkedKey(doc).value)] else [])
            else if NamesDrop(doc) || Named(doc) == "invalidate" || NamesMetadata(doc) || ID !in doc then []
            else [Put(doc[ID], doc)]
  {
    hide Classify, Wiped, BatchWrites, NamesDrop, NamesMetadata, Named, MarkedKey;
    KindByName(doc);
    OneWipe(c, doc, left);
    OneWrite(doc);
  }

  lemma KindByName(doc: Document)
    ensures Classify(doc).Drop? <==> NamesDrop(doc)
    ensures Classify(doc).Invalidate? <==> Named(doc) == "invalidate"
    ensures Classify(doc).DeleteMarker? <==> Named(doc) == "delete" && MarkedKey(doc).Some?
    ensures Classify(doc).InvalidMarker? <==> Named(doc) == "delete" && MarkedKey(doc).None?
    ensures Classify(doc).Metadata? <==> NamesMetadata(doc)
    ensures Classify(doc).DeleteMarker? ==> Classify(doc).key == MarkedKey(doc).value
  {
  }

  lemma OneWrite(doc: Document)
    ensures BatchWrites([doc]) ==
            if Classify(doc).Regular? && ID in doc then [Put(doc[ID], doc)]
            else if Classify(doc).DeleteMarker? then [Remove(Classify(doc).key)] else []
  {
    hide Classify, Upserts, RegularDocs, DeletedKeys;
    OneOfEach(doc);
    OneUpsert(doc);
    NothingUpserted();
  }

  lemma OneOfEach(doc: Document)
    ensures RegularDocs([doc]) == if Classify(doc).Regular? then [doc] else []
    ensures DeletedKeys([doc]) == if Classify(doc).DeleteMarker? then [Classify(doc).key] else []
  {
    hide Classify;
    assert [doc][..0] == [];
  }

  lemma OneWipe(c: Collection, doc: Document, left: Leftovers)
    ensures Wiped(c, [doc], left) ==
            if left(0).None? || !Wipes(doc) then c else if Classify(doc).Drop? then map[] else left(0).value
  {
    hide Classify;
    assert [doc][..0] == [] && Wiped(c, [], left) == c;
  }

  lemma OneUpsert(doc: Document)
    ensures Upserts([doc]) == if ID in doc then [Put(doc[ID], doc)] else []
  {
    assert [doc][..0] == [];
  }

  lemma ApplyNothing(c: Collection)
    ensures Apply(c, []) == c
  {
  }

  lemma NoChunks(documents: seq<Document>)
    ensures ChunkEnd(0, |documents|) == 0 && UpsertChunks(documents, 0) == [] && InChunks([], [])
    ensures |documents| == 0 ==> AllUpsertChunks(documents) == []
  {
  }

  /** What the next chunk is among all of them. */
  lemma ChunkOfAll(documents: seq<Document>, k: nat)
    requires ChunkEnd(k, |documents|) < |documents|
    ensures k < ChunkCount(|documents|)
    ensures var all := AllUpsertChunks(documents);
            && all[..k] == UpsertChunks(documents, k)
            && all[k] == Upserts(documents[ChunkEnd(k, |documents|)..ChunkEnd(k + 1, |documents|)])
  {
    hide Upserts;
    ChunksAgree(documents, k, ChunkCount(|documents|));
    ChunksAgree(documents, k + 1, ChunkCount(|documents|));
    assert UpsertChunks(documents, k + 1)[k] == AllUpsertChunks(documents)[..k + 1][k];
  }

  lemma {:induction false} ChunksAgree(documents: seq<Document>, k: nat, n: nat)
    requires k <= n
    ensures UpsertChunks(documents, n)[..k] == UpsertChunks(documents, k)
    decreases n
  {
    hide Upserts;
    if k < n {
      ChunksAgree(documents, k, n - 1);
      assert UpsertChunks(documents, n)[..k] == UpsertChunks(documents, n - 1)[..k];
    }
  }

  lemma Stopped(chunks: seq<seq<Write>>, k: nat, done: seq<Write>, part: seq<Write>)
    requires k < |chunks| && InChunks(chunks[..k], done) && PartOf(part, chunks[k])
    ensures StoppedAt(chunks, k, done + part)
  {
  }

  /** One more chunk of deletes, or part of it. */
  lemma DeletedSoFar(ws: seq<Write>, i: nat, end: nat, done: seq<Write>, more: seq<Write>)
    requires i <= end <= |ws| && Reordering(ws[..i], done)
    ensures Reordering(ws[i..end], more) ==> Reordering(ws[..end], done + more)
    ensures PartOf(more, ws[i..end]) ==> PartOf(done + more, ws)
  {
    assert ws[..i] + ws[i..end] == ws[..end] && ws == ws[..i] + ws[i..end] + ws[end..];
    if Reordering(ws[i..end], more) {
      ReorderingAppend(ws[..i], ws[i..end], done, more);
    }
    if PartOf(more, ws[i..end]) {
      PartOfBatch(ws[..i], ws[i..end], ws[end..], done, more);
    }
  }

  lemma SameLength(keys: seq<Value>)
    ensures |Deletes(keys)| == |keys|
  {
  }

  lemma NoDeleteChunks(keys: seq<Value>)
    ensures ChunkEnd(0, |keys|) == 0 && DeleteChunks(keys, 0) == [] && InChunks([], []) && Reordering(Deletes(keys)[..0], [])
    ensures keys == [] ==> AllDeleteChunks(keys) == []
  {
  }

  /** The next chunk of deletes ends where the loop says, and what it is among all of them. */
  lemma NextDeletes(keys: seq<Value>, k: nat)
    requires ChunkEnd(k, |keys|) < |keys| == |Deletes(keys)|
    ensures k < ChunkCount(|keys|)
    ensures var i, end, all := ChunkEnd(k, |keys|), ChunkEnd(k + 1, |keys|), AllDeleteChunks(keys);
            && i < end == (if i + BATCH_SIZE > |keys| then |keys| else i + BATCH_SIZE)
            && DeleteChunks(keys, k + 1) == DeleteChunks(keys, k) + [Deletes(keys)[i..end]]
            && all[..k] == DeleteChunks(keys, k) && all[k] == Deletes(keys)[i..end]
  {
    var i, end := ChunkEnd(k, |keys|), ChunkEnd(k + 1, |keys|);
    assert Deletes(keys[i..end]) == Deletes(keys)[i..end];
    DeleteChunksAgree(keys, k, ChunkCount(|keys|));
    DeleteChunksAgree(keys, k + 1, ChunkCount(|keys|));
    assert DeleteChunks(keys, k + 1)[k] == AllDeleteChunks(keys)[..k + 1][k];
  }

  lemma {:induction false} DeleteChunksAgree(keys: seq<Value>, k: nat, n: nat)
    requires k <= n
    ensures DeleteChunks(keys, n)[..k] == DeleteChunks(keys, k)
    decreases n
  {
    if k < n {
      DeleteChunksAgree(keys, k, n - 1);
      assert DeleteChunks(keys, n)[..k] == DeleteChunks(keys, n - 1)[..k];
    }
  }

  lemma NothingToDelete(keys: seq<Value>)
    requires keys == []
    ensures Reordering(Deletes(keys), [])
  {
    assert Deletes(keys) == [];
  }

  /** Every bulk write covers a thousand documents, but the last one, which covers the rest. */
  lemma ChunksOfAThousand(n: nat, k: nat)
    requires k < ChunkCount(n)
    ensures var size := ChunkEnd(k + 1, n) - ChunkEnd(k, n);
            if k < ChunkCount(n) - 1 then size == 1000 else 1 <= size == n - 1000 * k <= 1000
  {
  }

  lemma EmptyChunk(ops: seq<Write>)
    requires |ops| == 0
    ensures Reordering(ops, [])
  {
    assert ops == [];
  }

  /** The next chunk ends where the loop says, and adds the upserts of its documents. */
  lemma NextChunk(documents: seq<Document>, k: nat)
    requires ChunkEnd(k, |documents|) < |documents|
    ensures var i, end := ChunkEnd(k, |documents|), ChunkEnd(k + 1, |documents|);
            && i < end == (if i + BATCH_SIZE > |documents| then |documents| else i + BATCH_SIZE)
            && UpsertChunks(documents, k + 1) == UpsertChunks(documents, k) + [Upserts(documents[i..end])]
  {
  }

  /** The loop stops after the last chunk. */
  lemma LastChunkEnds(n: nat, k: nat)
    requires ChunkEnd(k, n) == n && (k > 0 ==> ChunkEnd(k - 1, n) < n)
    ensures k == ChunkCount(n)
  {
  }

  lemma UpsertsUpTo(documents: seq<Document>, i: nat, end: nat)
    requires i <= end <= |documents|
    ensures Upserts(documents[..end]) == Upserts(documents[..i]) + Upserts(documents[i..end])
  {
    hide Upserts;
    var first, second := documents[..i], documents[i..end];
    assert documents[..end] == first + second;
    UpsertsAppend(first, second);
  }

  /** The chunks together are the upserts of their documents. */
  lemma {:induction false} ChunksOfUpserts(documents: seq<Document>, k: nat)
    ensures Flatten(UpsertChunks(documents, k)) == Upserts(documents[..ChunkEnd(k, |documents|)])
  {
    hide Upserts;
    if k == 0 {
      UpsertsAppend([], []);
      assert documents[..0] == [];
      NothingUpserted();
    } else {
      var chunks := UpsertChunks(documents, k);
      ChunksOfUpserts(documents, k - 1);
      assert chunks[..k - 1] == UpsertChunks(documents, k - 1);
      UpsertsUpTo(documents, ChunkEnd(k - 1, |documents|), ChunkEnd(k, |documents|));
    }
  }

  lemma NothingUpserted()
    ensures Upserts([]) == []
  {
  }

  lemma AllChunks(documents: seq<Document>)
    ensures Flatten(AllUpsertChunks(documents)) == Upserts(documents)
  {
    ChunksOfUpserts(documents, ChunkCount(|documents|));
    assert ChunkEnd(ChunkCount(|documents|), |documents|) == |documents|;
    assert documents[..|documents|] == documents;
  }

  /** Whole chunks and part of the next one are part of the batch's upserts. */
  lemma PartOfDocuments(documents: seq<Document>, k: nat, done: seq<Write>, part: seq<Write>)
    requires InChunks(UpsertChunks(documents, k), done) && ChunkEnd(k, |documents|) <= ChunkEnd(k + 1, |documents|)
    requires PartOf(part, Upserts(documents[ChunkEnd(k, |documents|)..ChunkEnd(k + 1, |documents|)]))
    ensures PartOf(done + part, Upserts(documents))
  {
    hide Upserts, PartOf, Reordering;
    var i, end := ChunkEnd(k, |documents|), ChunkEnd(k + 1, |documents|);
    InChunksReorders(UpsertChunks(documents, k), done);
    ChunksOfUpserts(documents, k);
    UpsertsUpTo(documents, i, end);
    UpsertsUpTo(documents, end, |documents|);
    assert documents[..|documents|] == documents;
    PartOfBatch(Upserts(documents[..i]), Upserts(documents[i..end]), Upserts(documents[end..]), done, part);
  }
}
