/**
 * The cloud side of incremental sync: poll the change log from the saved checkpoint, filter, send
 * the batch with retries, and move the checkpoint only after the send has succeeded.
 */
module CloudSync {
  import opened Common
  import opened Documents
  import opened ChangeLog
  import opened Filtering
  import opened VmSync

  /** A change event, with post-images; `Other` has neither a document nor a deleted key. */
  datatype Event = Change(fullDocument: Document) | Deletion(id: Value) | Other

  function DeleteMarkerFor(id: Value): Document {
    map[OPERATION := Str("delete"), DOCUMENT_KEY := Doc(map[ID := id]), "_timestamp" := Null]
  }

  /** The wire document an event is sent as; `None` when it is skipped. */
  function Encode(e: Event, criteria: seq<Criterion>): Option<Document> {
    match e
    case Change(d) => if MatchesDocumentFilter(d, criteria) then Some(d) else None
    case Deletion(id) => Some(DeleteMarkerFor(id))
    case Other => None
  }

  function EncodeAll(es: seq<Event>, criteria: seq<Criterion>): seq<Document> {
    if es == [] then []
    else
      EncodeAll(es[..|es| - 1], criteria)
      + match Encode(es[|es| - 1], criteria) case None => [] case Some(d) => [d]
  }

  /** What an event that passes the filter does to the collection. */
  function WriteOf(e: Event, criteria: seq<Criterion>): Option<Write> {
    match e
    case Change(d) => if MatchesDocumentFilter(d, criteria) && ID in d then Some(Put(d[ID], d)) else None
    case Deletion(id) => Some(Remove(id))
    case Other => None
  }

  function Writes(es: seq<Event>, criteria: seq<Criterion>): seq<Write> {
    if es == [] then []
    else
      Writes(es[..|es| - 1], criteria)
      + match WriteOf(es[|es| - 1], criteria) case None => [] case Some(w) => [w]
  }

  // ---------- the wire format ----------

  /** A changed document that the VM side takes for a document, not for a marker. */
  predicate WireSafe(e: Event) {
    e.Change? ==> Classify(e.fullDocument).Regular?
  }

  /** How one more wire document extends what the VM side makes of a batch. */
  lemma OneMoreDocument(docs: seq<Document>, d: Document)
    ensures Upserts(RegularDocs(docs + [d])) ==
            Upserts(RegularDocs(docs)) + if Classify(d).Regular? && ID in d then [Put(d[ID], d)] else []
    ensures Deletes(DeletedKeys(docs + [d])) ==
            Deletes(DeletedKeys(docs)) + if Classify(d).DeleteMarker? then [Remove(Classify(d).key)] else []
  {
    assert (docs + [d])[..|docs|] == docs;
    var regular, keys := RegularDocs(docs), DeletedKeys(docs);
    assert regular + [] == regular && (regular + [d])[..|regular|] == regular;
    assert keys + [] == keys;
    assert Upserts(regular + [d]) == Upserts(regular) + if ID in d then [Put(d[ID], d)] else [];
    assert Classify(d).DeleteMarker? ==> Deletes(keys + [Classify(d).key]) == Deletes(keys) + [Remove(Classify(d).key)];
  }

  lemma OneEncoded(doc: Document, criteria: seq<Criterion>)
    requires ID in doc && MatchesDocumentFilter(doc, criteria)
    ensures EncodeAll([Change(doc)], criteria) == [doc]
  {
    assert [Change(doc)][..0] == [];
  }

  /** A document survives the wire exactly if its `_operation` field is not a marker's. */
  lemma WireRoundTrip(doc: Document, criteria: seq<Criterion>)
    requires ID in doc && MatchesDocumentFilter(doc, criteria)
    ensures BatchWrites(EncodeAll([Change(doc)], criteria)) == [Put(doc[ID], doc)] <==> Classify(doc).Regular?
  {
    hide MatchesDocumentFilter, Classify;
    OneEncoded(doc, criteria);
    OneMoreDocument([], doc);
    assert [] + [doc] == [doc];
    if Classify(doc).Regular? {
      assert BatchWrites([doc]) == [Put(doc[ID], doc)];
    } else {
      assert BatchWrites([doc]) == if Classify(doc).DeleteMarker? then [Remove(Classify(doc).key)] else [];
      assert Put(doc[ID], doc) !in BatchWrites([doc]);
    }
  }

  lemma OneMoreWrite(ws: seq<Write>, w: Write)
    ensures Puts(ws + [w]) == Puts(ws) + if w.Put? then [w] else []
    ensures Removes(ws + [w]) == Removes(ws) + if w.Remove? then [w] else []
  {
    assert (ws + [w])[..|ws|] == ws;
  }

  /** The VM side performs the upserts of the filtered log segment, then its deletes. */
  lemma {:induction false} SentWrites(es: seq<Event>, criteria: seq<Criterion>)
    requires forall e :: e in es ==> WireSafe(e)
    ensures Upserts(RegularDocs(EncodeAll(es, criteria))) == Puts(Writes(es, criteria))
    ensures Deletes(DeletedKeys(EncodeAll(es, criteria))) == Removes(Writes(es, criteria))
    ensures BatchWrites(EncodeAll(es, criteria)) == TwoPhase(Writes(es, criteria))
  {
    if es != [] {
      var e := es[|es| - 1];
      assert e in es && WireSafe(e);
      SentWrites(es[..|es| - 1], criteria);
      var docs, ws := EncodeAll(es[..|es| - 1], criteria), Writes(es[..|es| - 1], criteria);
      match Encode(e, criteria) {
        case None => assert docs + [] == docs;
        case Some(d) =>
          OneMoreDocument(docs, d);
          if e.Deletion? { MarkerKind(e.id); }
      }
      match WriteOf(e, criteria) {
        case None => assert ws + [] == ws;
        case Some(w) => OneMoreWrite(ws, w);
      }
    }
  }

  // ---------- one poll, as the code runs it ----------

  /** How one delivery to the VM side ends; `ackLost` is a delivery applied but reported as failed. */
  datatype Delivery = Delivery(left: Leftovers, order: Order, upsertFault: Fault, deleteFault: Fault, ackLost: bool)

  /** One send: TCP first where it is enabled, then HTTP; refused before the initial dump is done. */
  datatype Attempt = Attempt(dumpDone: bool, tcp: Option<Delivery>, http: Delivery)

  /** No bulk write of the batch fails during the delivery, and its success is heard of. */
  predicate Succeeds(documents: seq<Document>, d: Delivery) {
    !UpsertsFail(documents, d.upsertFault) && !DeletesFail(documents, d.deleteFault) && !d.ackLost
  }

  /** The attempt is made after the initial dump, and one of its deliveries succeeds; an empty batch needs none. */
  predicate GetsThrough(documents: seq<Document>, a: Attempt) {
    || documents == []
    || (a.dumpDone && ((a.tcp.Some? && Succeeds(documents, a.tcp.value)) || Succeeds(documents, a.http)))
  }

  predicate SomeGetsThrough(documents: seq<Document>, attempts: seq<Attempt>) {
    exists i :: 0 <= i < |attempts| && GetsThrough(documents, attempts[i])
  }

  /** The database reorders bulk writes, and does nothing else to them. */
  ghost predicate Orderly(attempt: Attempt) {
    Reorders(attempt.http.order) && (attempt.tcp.Some? ==> Reorders(attempt.tcp.value.order))
  }

  datatype Result = Success(changes: nat) | Failure

  const MAX_RETRIES := 5

  /**
   * The circumstances of one poll.  A fresh stream starts at `now`; the stream delivers events up to
   * `end`.  `tokenLost` is the expired-oplog branch, `cleared` and `saved` say whether checkpoint
   * updates succeed, `postBatchToken` whether an idle stream offers a token.
   */
  datatype Poll = Poll(
    now: nat, end: nat, attempts: seq<Attempt>, tokenLost: bool, cleared: bool, watchFails: bool, streamFails: bool,
    postBatchToken: bool, saved: bool)

  function StartOf(s: State, p: Poll): nat {
    if s.checkpoint.Some? && !p.tokenLost then s.checkpoint.value else p.now
  }

  ghost predicate CanPoll(s: State, p: Poll) {
    && |p.attempts| == MAX_RETRIES && (forall i :: 0 <= i < MAX_RETRIES ==> Orderly(p.attempts[i]))
    && (p.tokenLost ==> s.checkpoint.Some?) && StartOf(s, p) <= p.end <= |s.log|
  }

  /** The state once the stream is open: a lost token may have been cleared, unless an idle poll puts it back. */
  function AfterWatch(s: State, p: Poll, step: Step): State {
    if p.tokenLost && p.cleared && !PutsBack(s, p, step) then s.(checkpoint := None) else s
  }

  /** An idle poll without a new token saves the lost one again. */
  predicate PutsBack(s: State, p: Poll, step: Step) {
    !p.watchFails && step.Idle? && step.start == step.end && p.saved && !p.postBatchToken
  }

  /** The token an idle poll that read no event ends with. */
  function IdleToken(s: State, p: Poll): Option<nat> {
    if p.postBatchToken then Some(p.end) else s.checkpoint
  }

  /** How a poll ends: its step, what it returns, and the checkpoint it leaves. */
  ghost predicate PollEnds(criteria: seq<Criterion>, s: State, p: Poll, r: Result, step: Step, t: State)
    requires CanPoll(s, p)
  {
    var start := StartOf(s, p);
    var documents := EncodeAll(s.log[start..p.end], criteria);
    var kept := Kept(s, p);
    && t.log == s.log && t.furthest == Max(s.furthest, if p.watchFails then start else p.end)
    && t.delivered == s.delivered + (if step.Delivered? then Range(start, p.end) else {})
    && (documents == [] || p.watchFails || (forall a :: a in p.attempts ==> !a.dumpDone) ==> t.target == s.target)
    && if p.watchFails then
         step == Idle(start, start) && r == Failure && t.checkpoint == kept
       else if documents == [] then
         && step == Idle(start, p.end) && r == (if p.streamFails then Failure else Success(0))
         && t.checkpoint == if start == p.end && p.saved && IdleToken(s, p).Some? then IdleToken(s, p) else kept
       else if !SomeGetsThrough(documents, p.attempts) then
         step == Failed(start, p.end) && r == Failure && t.checkpoint == kept
       else
         && step.Delivered? && step.start == start && step.end == p.end
         && r == (if p.streamFails then Failure else Success(p.end - start))
         && t.checkpoint == if p.saved then Some(p.end) else kept
  }

  /** Any of the writes `ws`, any number of times, in any order, is what happened to `before`. */
  ghost predicate Scattered(before: Collection, ws: seq<Write>, after: Collection) {
    exists part: seq<Write> :: (forall w :: w in part ==> w in ws) && after == Apply(before, part)
  }

  lemma PartIsScattered(before: Collection, ws: seq<Write>, middle: Collection, part: seq<Write>)
    requires Scattered(before, ws, middle) && (forall w :: w in part ==> w in ws)
    ensures Scattered(before, ws, Apply(middle, part))
  {
    var a :| (forall w :: w in a ==> w in ws) && middle == Apply(before, a);
    ApplyAppend(before, a, part);
  }

  lemma PartMembers(part: seq<Write>, ws: seq<Write>)
    requires PartOf(part, ws)
    ensures forall w :: w in part ==> w in ws
  {
    forall w | w in part ensures w in ws {
      assert w in multiset(part) && w in multiset(ws);
    }
  }

  /** A complete execution leaves no trace of the partial ones before it. */
  lemma CompleteAfterScattered(before: Collection, ws: seq<Write>, middle: Collection, done: seq<Write>)
    requires Scattered(before, ws, middle) && forall w :: w in ws <==> w in done
    ensures Apply(middle, done) == Apply(before, done)
  {
    var part :| (forall w :: w in part ==> w in ws) && middle == Apply(before, part);
    forall key ensures Get(Apply(middle, done), key) == Get(Apply(before, done), key) {
      LastWriteWins(middle, done, key);
      LastWriteWins(before, done, key);
      LastWriteWins(before, part, key);
      LastWriteIsMember(done, key);
      LastWriteIsMember(part, key);
    }
    SameContents(Apply(middle, done), Apply(before, done));
  }

  /** The bulk writes of upserts that a batch of wire documents is cut into. */
  function BatchChunks(documents: seq<Document>): seq<seq<Write>> {
    AllUpsertChunks(RegularDocs(documents))
  }

  /** What a batch of wire documents was executed as. */
  ghost predicate BatchExecuted(documents: seq<Document>, done: seq<Write>) {
    Executed(BatchChunks(documents), Deletes(DeletedKeys(documents)), done)
  }

  lemma SplitMembers(ws: seq<Write>, k: nat)
    requires k <= |ws|
    ensures forall w :: w in ws <==> w in ws[..k] || w in ws[k..]
  {
    assert ws == ws[..k] + ws[k..];
  }

  lemma ExecutedMembers(documents: seq<Document>, done: seq<Write>)
    requires BatchExecuted(documents, done)
    ensures forall w :: w in BatchWrites(documents) <==> w in done
  {
    hide InChunks, Reordering;
    var dels := Deletes(DeletedKeys(documents));
    var k := |done| - |dels|;
    InChunksReorders(BatchChunks(documents), done[..k]);
    AllChunks(RegularDocs(documents));
    ReorderingMembers(Upserts(RegularDocs(documents)), done[..k]);
    ReorderingMembers(dels, done[k..]);
    SplitMembers(done, k);
  }

  /** The chunks of a sent log segment cut its upserts. */
  lemma SentChunks(es: seq<Event>, criteria: seq<Criterion>)
    requires forall e :: e in es ==> WireSafe(e)
    ensures CutsUpserts(Writes(es, criteria), BatchChunks(EncodeAll(es, criteria)))
  {
    SentWrites(es, criteria);
    AllChunks(RegularDocs(EncodeAll(es, criteria)));
  }

  lemma NothingScattered(c: Collection, ws: seq<Write>)
    ensures Scattered(c, ws, c)
  {
    var none: seq<Write> := [];
    assert c == Apply(c, none);
  }

  /** No changed document reads like a marker that wipes the collection. */
  predicate Unmarked(log: seq<Event>) {
    forall e :: e in log && e.Change? ==> !Wipes(e.fullDocument)
  }

  /** The collection is what the writes make of some collection, so it holds the effect of all of them. */
  ghost predicate EndsWith(after: Collection, done: seq<Write>) {
    exists base: Collection :: after == Apply(base, done)
  }

  /** What one delivery makes of a collection that parts of the batch may have reached before. */
  lemma AfterDelivery(
      documents: seq<Document>, left: Leftovers, before: Collection, middle: Collection, done: seq<Write>, ok: bool)
    requires Harmless(documents) ==> Scattered(before, BatchWrites(documents), middle)
    requires if ok then BatchExecuted(documents, done) else forall w :: w in done ==> w in BatchWrites(documents)
    ensures var after := Apply(Wiped(middle, documents, left), done);
            && EndsWith(after, done)
            && (Harmless(documents) ==>
                  if ok then after == Apply(before, done) else Scattered(before, BatchWrites(documents), after))
  {
    hide BatchWrites, BatchExecuted, Scattered, Apply;
    if Harmless(documents) {
      HarmlessLeavesAll(middle, documents, left);
      if ok {
        ExecutedMembers(documents, done);
        CompleteAfterScattered(before, BatchWrites(documents), middle, done);
      } else {
        PartIsScattered(before, BatchWrites(documents), middle, done);
      }
    }
  }

  class Replicator {
    const criteria: seq<Criterion>
    const target: TargetCollection
    var checkpoint: Option<nat>
    ghost var furthest: nat
    ghost var delivered: set<nat>

    constructor (criteria: seq<Criterion>, target: TargetCollection, checkpoint: Option<nat>)
      ensures this.criteria == criteria && this.target == target && this.checkpoint == checkpoint
      ensures furthest == (if checkpoint.Some? then checkpoint.value else 0) && delivered == {}
    {
      this.criteria, this.target, this.checkpoint := criteria, target, checkpoint;
      furthest, delivered := if checkpoint.Some? then checkpoint.value else 0, {};
    }

    ghost function Abs(log: seq<Event>): State
      reads this, target
    {
      State(log, checkpoint, target.docs, furthest, delivered)
    }

    method Deliver(documents: seq<Document>, d: Delivery) returns (ok: bool, ghost done: seq<Write>)
      requires Reorders(d.order)
      modifies target
      ensures target.docs == Apply(Wiped(old(target.docs), documents, d.left), done)
      ensures ok ==> BatchExecuted(documents, done)
      ensures !ok ==> forall w :: w in done ==> w in BatchWrites(documents)
      ensures ok <==> Succeeds(documents, d)
      ensures d.ackLost ==> !ok
      ensures d.upsertFault.NoFault? && d.deleteFault.NoFault? && !d.ackLost ==> ok
    {
      ok, done := target.ProcessIncrementalData(documents, d.left, d.order, d.upsertFault, d.deleteFault);
      if !ok {
        PartMembers(done, BatchWrites(documents));
      } else if d.ackLost {
        ExecutedMembers(documents, done);
        ok := false;
      }
    }

    method SendIncrementalChanges(documents: seq<Document>, attempt: Attempt) returns (ok: bool, ghost done: seq<Write>)
      requires Orderly(attempt)
      modifies target
      ensures ok ==> BatchExecuted(documents, done) && EndsWith(target.docs, done)
      ensures Harmless(documents) ==>
        if ok then target.docs == Apply(old(target.docs), done)
        else Scattered(old(target.docs), BatchWrites(documents), target.docs)
      ensures ok <==> GetsThrough(documents, attempt)
      ensures |documents| > 0 && !attempt.dumpDone ==> !ok
      ensures attempt.dumpDone && attempt.tcp.Some? && Succeeds(documents, attempt.tcp.value) ==> ok
      ensures attempt.dumpDone && Succeeds(documents, attempt.http) ==> ok
      ensures documents == [] || !attempt.dumpDone ==> target.docs == old(target.docs) && done == []
    {
      hide Apply, BatchExecuted, BatchWrites, Scattered, EndsWith, Harmless, Succeeds;
      ghost var ws := BatchWrites(documents);
      NothingScattered(target.docs, ws);
      done := [];
      if |documents| == 0 {
        EmptyBatch(target.docs);
        assert documents == [];
        return true, done;
      }
      if !attempt.dumpDone {
        return false, done;
      }
      if attempt.tcp.Some? {
        ok, done := Deliver(documents, attempt.tcp.value);
        AfterDelivery(documents, attempt.tcp.value.left, old(target.docs), old(target.docs), done, ok);
        if ok { return; }
      }
      ghost var middle := target.docs;
      ok, done := Deliver(documents, attempt.http);
      AfterDelivery(documents, attempt.http.left, old(target.docs), middle, done, ok);
    }

    method SendWithRetry(documents: seq<Document>, attempts: seq<Attempt>) returns (ok: bool, ghost done: seq<Write>)
      requires |attempts| == MAX_RETRIES && forall i :: 0 <= i < MAX_RETRIES ==> Orderly(attempts[i])
      modifies target
      ensures ok ==> BatchExecuted(documents, done) && EndsWith(target.docs, done)
      ensures Harmless(documents) ==>
        if ok then target.docs == Apply(old(target.docs), done)
        else Scattered(old(target.docs), BatchWrites(documents), target.docs)
      ensures ok <==> SomeGetsThrough(documents, attempts)
      ensures documents == [] || (forall a :: a in attempts ==> !a.dumpDone) ==> target.docs == old(target.docs)
    {
      hide Apply, BatchExecuted, BatchWrites, Scattered, EndsWith, Harmless, GetsThrough;
      ghost var ws := BatchWrites(documents);
      NothingScattered(target.docs, ws);
      done := [];
      for attempt := 0 to MAX_RETRIES
        invariant Harmless(documents) ==> Scattered(old(target.docs), ws, target.docs)
        invariant forall i :: 0 <= i < attempt ==> !GetsThrough(documents, attempts[i])
        invariant documents == [] || (forall a :: a in attempts ==> !a.dumpDone) ==> target.docs == old(target.docs)
      {
        ghost var middle := target.docs;
        ok, done := SendIncrementalChanges(documents, attempts[attempt]);
        if ok {
          ExecutedMembers(documents, done);
        }
        if Harmless(documents) {
          if ok {
            CompleteAfterScattered(old(target.docs), ws, middle, done);
          } else {
            ScatteredTwice(old(target.docs), ws, middle, target.docs);
          }
        }
        if ok { return; }
      }
      ok := false;
    }

    /** Reads `log[start..end]` from the stream into wire documents, tracking the last resume token. */
    method ReadStream(log: seq<Event>, start: nat, end: nat, startFromToken: Option<nat>)
      returns (documents: seq<Document>, changeCount: nat, lastResumeToken: Option<nat>)
      requires start <= end <= |log|
      ensures documents == EncodeAll(log[start..end], criteria)
      ensures changeCount == end - start
      ensures lastResumeToken == if end == start then startFromToken else Some(end)
      ensures Unmarked(log) ==> Harmless(documents)
    {
      hide Wipes, MatchesDocumentFilter, DeleteMarkerFor, EncodeAll;
      NothingEncoded(log[start..start], criteria);
      documents, changeCount, lastResumeToken := [], 0, startFromToken;
      for i := start to end
        invariant documents == EncodeAll(log[start..i], criteria)
        invariant changeCount == i - start
        invariant lastResumeToken == if i == start then startFromToken else Some(i)
        invariant Unmarked(log) ==> Harmless(documents)
      {
        assert log[start..i + 1] == log[start..i] + [log[i]] && log[i] in log;
        EncodeOneMore(log[start..i], log[i], criteria);
        lastResumeToken := Some(i + 1);
        changeCount := changeCount + 1;
        match log[i]
        case Change(d) =>
          if MatchesDocumentFilter(d, criteria) {
            documents := documents + [d];
          }
        case Deletion(id) =>
          MarkerKind(id);
          documents := documents + [DeleteMarkerFor(id)];
        case Other =>
      }
    }

    /** One polling cycle on `log`. */
    method DetectAndSyncWithChangeStream(log: seq<Event>, p: Poll) returns (r: Result, ghost step: Step)
      requires CanPoll(Abs(log), p)
      modifies this, target
      ensures PollEnds(criteria, old(Abs(log)), p, r, step, Abs(log))
      ensures Unmarked(log) ==> Next(criteria, AfterWatch(old(Abs(log)), p, step), step, Abs(log))
      ensures step.Delivered? ==>
        BatchExecuted(EncodeAll(log[step.start..p.end], criteria), step.done) && EndsWith(target.docs, step.done)
    {
      hide Scattered, BatchExecuted, BatchWrites, Next, EndsWith, Harmless, Unmarked, Apply, PollEnds, AfterWatch, Max;
      hide Orderly, GetsThrough, SomeGetsThrough, Range, Reorders, Encode, AllUpsertChunks;
      ghost var s := Abs(log);
      var startFromToken := checkpoint;
      var start := if checkpoint.Some? && !p.tokenLost then checkpoint.value else p.now;
      step := Idle(start, start);
      if p.tokenLost && p.cleared {
        checkpoint := None;
      }
      if p.watchFails {
        furthest := Later(furthest, start);
        WatchFailed(criteria, s, p, Abs(log));
        return Failure, step;
      }

      var documents, changeCount, lastResumeToken := ReadStream(log, start, p.end, startFromToken);
      furthest := Later(furthest, p.end);
      step := Idle(start, p.end);
      if changeCount == 0 {
        if p.postBatchToken {
          lastResumeToken := Some(p.end);
        }
        if lastResumeToken.Some? && p.saved {
          checkpoint := lastResumeToken;
        }
      }
      if |documents| == 0 {
        r := if p.streamFails then Failure else Success(0);
        NothingToSend(criteria, s, p, r, Abs(log));
        return r, step;
      }

      var sent, done := SendWithRetry(documents, p.attempts);
      if !sent {
        step := Failed(start, p.end);
        SendFailed(criteria, s, p, documents, Unmarked(log), Abs(log));
        return Failure, step;
      }
      step := Delivered(start, p.end, done);
      delivered := delivered + Range(start, p.end);
      if lastResumeToken.Some? && p.saved {
        checkpoint := lastResumeToken;
      }
      r := if p.streamFails then Failure else Success(changeCount);
      BatchSent(criteria, s, p, documents, done, Unmarked(log), r, Abs(log));
    }
  }

  function Later(furthest: nat, end: nat): (r: nat)
    ensures r == Max(furthest, end)
  {
    Max(furthest, end)
  }

  /** The checkpoint after the stream was opened. */
  function Kept(s: State, p: Poll): Option<nat> {
    if p.tokenLost && p.cleared then None else s.checkpoint
  }

  lemma WatchFailed(criteria: seq<Criterion>, s: State, p: Poll, t: State)
    requires CanPoll(s, p) && p.watchFails
    requires t == s.(furthest := Max(s.furthest, StartOf(s, p)), checkpoint := Kept(s, p))
    ensures var step := Idle(StartOf(s, p), StartOf(s, p));
            PollEnds(criteria, s, p, Failure, step, t) && Next(criteria, AfterWatch(s, p, step), step, t)
  {
    hide EncodeAll, SomeGetsThrough;
  }

  lemma NothingToSend(criteria: seq<Criterion>, s: State, p: Poll, r: Result, t: State)
    requires CanPoll(s, p) && !p.watchFails && EncodeAll(s.log[StartOf(s, p)..p.end], criteria) == []
    requires r == if p.streamFails then Failure else Success(0)
    requires t == s.(furthest := Max(s.furthest, p.end), checkpoint := t.checkpoint)
    requires t.checkpoint ==
      if StartOf(s, p) == p.end && p.saved && IdleToken(s, p).Some? then IdleToken(s, p) else Kept(s, p)
    ensures var step := Idle(StartOf(s, p), p.end);
            PollEnds(criteria, s, p, r, step, t) && Next(criteria, AfterWatch(s, p, step), step, t)
  {
    hide EncodeAll, SomeGetsThrough;
  }

  lemma SendFailed(criteria: seq<Criterion>, s: State, p: Poll, documents: seq<Document>, unmarked: bool, t: State)
    requires CanPoll(s, p) && !p.watchFails && documents == EncodeAll(s.log[StartOf(s, p)..p.end], criteria) != []
    requires !SomeGetsThrough(documents, p.attempts)
    requires t == s.(furthest := Max(s.furthest, p.end), target := t.target, checkpoint := Kept(s, p))
    requires (forall a :: a in p.attempts ==> !a.dumpDone) ==> t.target == s.target
    requires unmarked ==> Scattered(s.target, BatchWrites(documents), t.target)
    ensures var step := Failed(StartOf(s, p), p.end);
            && PollEnds(criteria, s, p, Failure, step, t)
            && (unmarked ==> Next(criteria, AfterWatch(s, p, step), step, t))
  {
    hide EncodeAll, SomeGetsThrough, BatchWrites;
  }

  lemma BatchSent(
      criteria: seq<Criterion>, s: State, p: Poll, documents: seq<Document>, done: seq<Write>, unmarked: bool, r: Result, t: State)
    requires CanPoll(s, p) && !p.watchFails && documents == EncodeAll(s.log[StartOf(s, p)..p.end], criteria) != []
    requires SomeGetsThrough(documents, p.attempts) && BatchExecuted(documents, done)
    requires r == if p.streamFails then Failure else Success(p.end - StartOf(s, p))
    requires t == s.(furthest := Max(s.furthest, p.end), target := t.target,
                     checkpoint := if p.saved then Some(p.end) else Kept(s, p),
                     delivered := s.delivered + Range(StartOf(s, p), p.end))
    requires (forall a :: a in p.attempts ==> !a.dumpDone) ==> t.target == s.target
    requires unmarked ==> t.target == Apply(s.target, done)
    ensures var step := Delivered(StartOf(s, p), p.end, done);
            && PollEnds(criteria, s, p, r, step, t)
            && (unmarked ==> Next(criteria, AfterWatch(s, p, step), step, t))
  {
    hide EncodeAll, SomeGetsThrough, BatchExecuted, Apply, Range;
  }

  lemma MarkerKind(id: Value)
    ensures Classify(DeleteMarkerFor(id)) == DeleteMarker(id) && !Wipes(DeleteMarkerFor(id))
  {
    assert DeleteMarkerFor(id)[DOCUMENT_KEY] == Doc(map[ID := id]);
  }

  lemma EncodeOneMore(es: seq<Event>, e: Event, criteria: seq<Criterion>)
    ensures EncodeAll(es + [e], criteria) ==
            match Encode(e, criteria) case None => EncodeAll(es, criteria) case Some(d) => EncodeAll(es, criteria) + [d]
  {
    assert (es + [e])[..|es|] == es;
    assert EncodeAll(es, criteria) + [] == EncodeAll(es, criteria);
  }

  lemma NothingEncoded(es: seq<Event>, criteria: seq<Criterion>)
    requires es == []
    ensures EncodeAll(es, criteria) == []
  {
  }

  lemma IdleStep(criteria: seq<Criterion>, s: State, start: nat, end: nat, t: State)
    requires start <= end <= |s.log| && t == s.(furthest := Max(s.furthest, end), checkpoint := t.checkpoint)
    requires t.checkpoint == s.checkpoint || (start == end && t.checkpoint == Some(end))
    ensures Next(criteria, s, Idle(start, end), t)
  {
  }

  lemma FailedStep(criteria: seq<Criterion>, s: State, start: nat, end: nat, t: State)
    requires start <= end <= |s.log| && t == s.(furthest := Max(s.furthest, end), target := t.target)
    requires Scattered(s.target, BatchWrites(EncodeAll(s.log[start..end], criteria)), t.target)
    ensures Next(criteria, s, Failed(start, end), t)
  {
  }

  lemma DeliveredStep(criteria: seq<Criterion>, s: State, start: nat, end: nat, done: seq<Write>, t: State)
    requires start <= end <= |s.log| && BatchExecuted(EncodeAll(s.log[start..end], criteria), done)
    requires t == s.(furthest := Max(s.furthest, end), target := Apply(s.target, done),
                     delivered := s.delivered + Range(start, end), checkpoint := t.checkpoint)
    requires t.checkpoint == s.checkpoint || t.checkpoint == Some(end)
    ensures Next(criteria, s, Delivered(start, end, done), t)
  {
  }

  lemma EmptyBatch(c: Collection)
    ensures BatchExecuted([], []) && Apply(c, []) == c && EndsWith(c, [])
  {
    assert c == Apply(c, []);
  }

  lemma ScatteredTwice(before: Collection, ws: seq<Write>, middle: Collection, after: Collection)
    requires Scattered(before, ws, middle) && Scattered(middle, ws, after)
    ensures Scattered(before, ws, after)
  {
    var a :| (forall w :: w in a ==> w in ws) && middle == Apply(before, a);
    var b :| (forall w :: w in b ==> w in ws) && after == Apply(middle, b);
    ApplyAppend(before, a, b);
  }

  // ---------- the protocol as a state machine ----------

  /**
   * The source's log, the saved checkpoint, the target, the furthest log position ever read, and the
   * positions that were in a batch whose send returned success.
   */
  datatype State = State(log: seq<Event>, checkpoint: Option<nat>, target: Collection, furthest: nat, delivered: set<nat>)

  /**
   * A source write, or the three ways a poll of `log[start..end]` can end; a delivered batch was executed
   * as `done`.
   */
  datatype Step =
    | SourceWrite(event: Event)
    | Idle(start: nat, end: nat)
    | Failed(start: nat, end: nat)
    | Delivered(start: nat, end: nat, done: seq<Write>)

  ghost predicate Next(criteria: seq<Criterion>, s: State, step: Step, t: State) {
    match step
    case SourceWrite(e) => t == s.(log := s.log + [e])
    case Idle(start, end) =>
      && start <= end <= |s.log|
      && t == s.(furthest := Max(s.furthest, end), checkpoint := t.checkpoint)
      && (t.checkpoint == s.checkpoint || (start == end && t.checkpoint == Some(end)))
    case Failed(start, end) =>
      && start <= end <= |s.log|
      && t == s.(furthest := Max(s.furthest, end), target := t.target)
      && Scattered(s.target, SentBatch(criteria, s, step), t.target)
    case Delivered(start, end, done) =>
      && start <= end <= |s.log| && BatchExecuted(EncodeAll(s.log[start..end], criteria), done)
      && t == s.(furthest := Max(s.furthest, end), target := Apply(s.target, done),
                 delivered := s.delivered + Range(start, end), checkpoint := t.checkpoint)
      && (t.checkpoint == s.checkpoint || t.checkpoint == Some(end))
  }

  /** The writes the VM side performs for the batch of a poll. */
  function SentBatch(criteria: seq<Criterion>, s: State, step: Step): seq<Write>
    requires !step.SourceWrite? && step.start <= step.end <= |s.log|
  {
    BatchWrites(EncodeAll(s.log[step.start..step.end], criteria))
  }

  /** The poll resumed from the saved checkpoint: it did not take the expired-oplog branch. */
  predicate Resumed(s: State, step: Step) {
    step.SourceWrite? || (s.checkpoint.Some? && step.start == s.checkpoint.value)
  }

  ghost predicate Run(criteria: seq<Criterion>, states: seq<State>, steps: seq<Step>) {
    && |states| == |steps| + 1
    && forall i :: 0 <= i < |steps| ==> Next(criteria, states[i], steps[i], states[i + 1]) && Resumed(states[i], steps[i])
  }

  /** The state in which the first checkpoint `c` has just been saved. */
  predicate FirstCheckpoint(s: State, c: nat) {
    c <= |s.log| && s.checkpoint == Some(c) && s.furthest == c
  }

  /** Full replay of the filtered log from the first checkpoint `c` up to position `p`. */
  function Replay(criteria: seq<Criterion>, base: Collection, log: seq<Event>, c: nat, p: nat): Collection
    requires c <= p <= |log|
  {
    Apply(base, Writes(log[c..p], criteria))
  }

  predicate Sendable(e: Event, criteria: seq<Criterion>) {
    Encode(e, criteria).Some?
  }

  // ---------- at-least-once delivery ----------

  ghost predicate DeliveredBefore(criteria: seq<Criterion>, s: State, c: nat) {
    && s.checkpoint.Some? && c <= s.checkpoint.value <= s.furthest <= |s.log|
    && forall i :: c <= i < s.checkpoint.value && Sendable(s.log[i], criteria) ==> i in s.delivered
  }

  lemma DeliveryStep(criteria: seq<Criterion>, s: State, step: Step, t: State, c: nat)
    requires DeliveredBefore(criteria, s, c) && Next(criteria, s, step, t) && Resumed(s, step)
    ensures DeliveredBefore(criteria, t, c) && t.checkpoint.value >= s.checkpoint.value
  {
    match step
    case SourceWrite(e) =>
      forall i | c <= i < s.checkpoint.value ensures t.log[i] == s.log[i] {}
    case _ =>
  }

  /**
   * At-least-once delivery: in every run, whatever the failures and retries, the checkpoint never
   * moves back and every sendable event below it was in a batch whose send returned success.
   */
  lemma {:induction false} AtLeastOnce(criteria: seq<Criterion>, states: seq<State>, steps: seq<Step>, c: nat, i: nat)
    requires Run(criteria, states, steps) && FirstCheckpoint(states[0], c) && i < |states|
    ensures DeliveredBefore(criteria, states[i], c)
    ensures i > 0 ==> states[i - 1].checkpoint.Some? && states[i - 1].checkpoint.value <= states[i].checkpoint.value
  {
    if i > 0 {
      AtLeastOnce(criteria, states, steps, c, i - 1);
      DeliveryStep(criteria, states[i - 1], steps[i - 1], states[i], c);
    }
  }

  /**
   * A poll that starts anywhere at or after the checkpoint and saves its end, as the expired-oplog branch
   * does from the current position, keeps every event delivered exactly if the sendable ones it skips
   * had been delivered before.
   */
  lemma SkippingIsSafeIff(criteria: seq<Criterion>, s: State, step: Step, t: State, c: nat, cleared: bool)
    requires DeliveredBefore(criteria, s, c) && (step.Idle? || step.Delivered?) && s.checkpoint.value <= step.start
    requires Next(criteria, if cleared then s.(checkpoint := None) else s, step, t) && t.checkpoint == Some(step.end)
    ensures DeliveredBefore(criteria, t, c) <==>
            forall i :: s.checkpoint.value <= i < step.start && Sendable(s.log[i], criteria) ==> i in s.delivered
  {
    forall i | s.checkpoint.value <= i < step.start ensures i in t.delivered <==> i in s.delivered {
    }
  }

  /** The expired-oplog branch does skip an event for good. */
  lemma ExpiryLosesEvents(criteria: seq<Criterion>, id: Value)
    ensures var log := [Deletion(id)];
            var s := State(log, Some(0), map[], 0, {});
            var t := State(log, Some(1), map[], 1, {});
            && DeliveredBefore(criteria, s, 0)
            && Next(criteria, s, Idle(1, 1), t)
            && !Resumed(s, Idle(1, 1))
            && !DeliveredBefore(criteria, t, 0)
  {
    var s, t := State([Deletion(id)], Some(0), map[], 0, {}), State([Deletion(id)], Some(1), map[], 1, {});
    assert Sendable(s.log[0], criteria);
    SkippingIsSafeIff(criteria, s, Idle(1, 1), t, 0, false);
  }

  // ---------- runs of polls ----------

  /** A poll of a log without markers, as the code runs it. */
  ghost predicate Polled(criteria: seq<Criterion>, s: State, p: Poll, r: Result, step: Step, t: State) {
    CanPoll(s, p) && PollEnds(criteria, s, p, r, step, t) && Next(criteria, AfterWatch(s, p, step), step, t)
  }

  /** The segment the poll reads. */
  function Segment(s: State, p: Poll): seq<Event>
    requires StartOf(s, p) <= p.end <= |s.log|
  {
    s.log[StartOf(s, p)..p.end]
  }

  predicate HasSendable(es: seq<Event>, criteria: seq<Criterion>) {
    exists e :: e in es && Sendable(e, criteria)
  }

  lemma {:induction false} SomethingEncoded(es: seq<Event>, criteria: seq<Criterion>)
    ensures EncodeAll(es, criteria) != [] <==> HasSendable(es, criteria)
  {
    if es != [] {
      var n := |es| - 1;
      SomethingEncoded(es[..n], criteria);
      assert es == es[..n] + [es[n]];
      EncodeOneMore(es[..n], es[n], criteria);
      assert HasSendable(es, criteria) <==> HasSendable(es[..n], criteria) || Sendable(es[n], criteria) by {
        assert es[n] in es && forall e :: e in es <==> e in es[..n] || e == es[n];
      }
    }
  }

  /** With a checkpoint that is not lost, a poll is a step of the protocol that resumes where the last one saved. */
  lemma PollResumes(criteria: seq<Criterion>, s: State, p: Poll, r: Result, step: Step, t: State)
    requires Polled(criteria, s, p, r, step, t) && s.checkpoint.Some? && !p.tokenLost
    ensures Next(criteria, s, step, t) && Resumed(s, step)
  {
    hide SomeGetsThrough, EncodeAll, Next;
  }

  /**
   * What a poll returns: it succeeds exactly if the stream opened and did not break and whatever there was to
   * send got through, and then reports the events it read if it sent anything.
   */
  lemma PollReports(criteria: seq<Criterion>, s: State, p: Poll, r: Result, step: Step, t: State)
    requires Polled(criteria, s, p, r, step, t)
    ensures var es := Segment(s, p);
            && (r.Success? <==> && !p.watchFails && !p.streamFails
                                && (HasSendable(es, criteria) ==> SomeGetsThrough(EncodeAll(es, criteria), p.attempts)))
            && (r.Success? ==> r.changes == if HasSendable(es, criteria) then |es| else 0)
            && |p.attempts| == 5
  {
    hide SomeGetsThrough, EncodeAll, Next;
    SomethingEncoded(Segment(s, p), criteria);
  }

  /** Until the initial dump is done nothing is sent: a poll with something to send fails and changes neither target nor checkpoint. */
  lemma BlockedBeforeDump(criteria: seq<Criterion>, s: State, p: Poll, r: Result, step: Step, t: State)
    requires Polled(criteria, s, p, r, step, t) && !p.tokenLost && !p.watchFails && HasSendable(Segment(s, p), criteria)
    requires forall a :: a in p.attempts ==> !a.dumpDone
    ensures step.Failed? && r.Failure? && t == s.(furthest := Max(s.furthest, p.end))
  {
    hide EncodeAll;
    SomethingEncoded(Segment(s, p), criteria);
  }

  /**
   * When a fresh stream gets its first checkpoint: exactly if the poll saves, and either reads no event and is
   * offered a token or sends its batch.  It then lies at the end of what was read, with every sendable event
   * of the segment sent.
   */
  lemma FirstCheckpointIff(criteria: seq<Criterion>, s: State, p: Poll, r: Result, step: Step, t: State)
    requires Polled(criteria, s, p, r, step, t) && s.checkpoint.None? && s.furthest <= p.end
    ensures var es := Segment(s, p);
            && (t.checkpoint.Some? <==>
                  && !p.watchFails && p.saved
                  && ((es == [] && p.postBatchToken)
                      || (HasSendable(es, criteria) && SomeGetsThrough(EncodeAll(es, criteria), p.attempts))))
            && (t.checkpoint.Some? ==> FirstCheckpoint(t, p.end))
            && (t.checkpoint.Some? ==> forall i :: p.now <= i < p.end && Sendable(t.log[i], criteria) ==> i in t.delivered)
  {
    hide SomeGetsThrough, EncodeAll;
    SomethingEncoded(Segment(s, p), criteria);
    if EncodeAll(Segment(s, p), criteria) == [] {
      forall i | p.now <= i < p.end ensures !Sendable(t.log[i], criteria) {
        assert s.log[i] == Segment(s, p)[i - p.now] && s.log[i] in Segment(s, p);
      }
    }
  }

  /** The positions between the two ends that hold something sendable are in delivered batches. */
  ghost predicate SentBetween(criteria: seq<Criterion>, s: State, from: nat, to: nat) {
    forall i :: from <= i < to && i < |s.log| && Sendable(s.log[i], criteria) ==> i in s.delivered
  }

  /**
   * Two polls in a row of a fresh stream, the first of which reads no event, with source writes in between.
   * When the second one sends its batch, every sendable event since the first is sent exactly if the first
   * one's token was saved or nothing sendable lies before the point where the second stream starts afresh.
   */
  lemma TwoPollsSkipNothingIff(
      criteria: seq<Criterion>, s: State, p1: Poll, r1: Result, step1: Step, t: State, news: seq<Event>,
      p2: Poll, r2: Result, step2: Step, u: State)
    requires Polled(criteria, s, p1, r1, step1, t) && s.checkpoint.None? && !p1.watchFails && p1.now == p1.end == |s.log|
    requires s.delivered <= Range(0, |s.log|)
    requires Polled(criteria, t.(log := t.log + news), p2, r2, step2, u) && !p2.tokenLost && step2.Delivered?
    requires p1.end <= p2.now <= p2.end
    ensures SentBetween(criteria, u, p1.end, p2.end) <==>
            (p1.saved && p1.postBatchToken) || !HasSendable((t.log + news)[p1.end..p2.now], criteria)
  {
    hide SomeGetsThrough, EncodeAll, BatchExecuted, Apply;
    assert Segment(s, p1) == [];
    SomethingEncoded([], criteria);
    var log := t.log + news;
    assert t.checkpoint == if p1.saved && p1.postBatchToken then Some(p1.end) else None;
    assert step2.start == if p1.saved && p1.postBatchToken then p1.end else p2.now;
    assert u.log == log && u.delivered == s.delivered + Range(step2.start, p2.end);
    forall i | p1.end <= i < p2.end ensures i in u.delivered <==> step2.start <= i {
    }
    SkippedBetween(criteria, u, p1.end, step2.start, p2.end);
  }

  lemma SkippedBetween(criteria: seq<Criterion>, s: State, from: nat, start: nat, to: nat)
    requires from <= start <= to <= |s.log|
    requires forall i :: from <= i < to ==> (i in s.delivered <==> start <= i)
    ensures SentBetween(criteria, s, from, to) <==> !HasSendable(s.log[from..start], criteria)
  {
    if HasSendable(s.log[from..start], criteria) {
      var e :| e in s.log[from..start] && Sendable(e, criteria);
      var k :| 0 <= k < start - from && s.log[from..start][k] == e;
      assert s.log[from + k] == e;
    } else {
      forall i | from <= i < start ensures !Sendable(s.log[i], criteria) {
        assert s.log[i] == s.log[from..start][i - from];
      }
    }
  }

  /**
   * A poll that meets no failure and reads to the end of the log moves the checkpoint there exactly if it read
   * no event at all or a sendable one: events that the filter keeps back are read again by every poll.
   */
  lemma FlawlessPollReachesEndIff(criteria: seq<Criterion>, s: State, p: Poll, r: Result, step: Step, t: State)
    requires Polled(criteria, s, p, r, step, t) && s.checkpoint.Some? && !p.tokenLost && !p.watchFails && p.saved
    requires p.end == |s.log| && SomeGetsThrough(EncodeAll(Segment(s, p), criteria), p.attempts)
    ensures t.checkpoint == Some(|t.log|) <==> Segment(s, p) == [] || HasSendable(Segment(s, p), criteria)
    ensures t.checkpoint == Some(|t.log|) || t == s.(furthest := Max(s.furthest, p.end))
  {
    hide SomeGetsThrough, EncodeAll;
    SomethingEncoded(Segment(s, p), criteria);
  }

  /** A poll whose token is lost starts at the current position and forgets the old token exactly if it clears and does not save. */
  lemma LostTokenPoll(criteria: seq<Criterion>, s: State, p: Poll, r: Result, step: Step, t: State)
    requires Polled(criteria, s, p, r, step, t) && p.tokenLost && !p.saved
    ensures step.start == p.now
    ensures t.checkpoint == if p.cleared then None else s.checkpoint
  {
    hide SomeGetsThrough, EncodeAll, Next;
  }

  /**
   * A poll that lost its token, starts at or after it and saves the end of what it read keeps at-least-once
   * delivery exactly if every sendable event between the lost position and the new start had been sent.
   */
  lemma LostTokenIsSafeIff(criteria: seq<Criterion>, s: State, p: Poll, r: Result, step: Step, t: State, c: nat)
    requires Polled(criteria, s, p, r, step, t) && p.tokenLost && DeliveredBefore(criteria, s, c)
    requires s.checkpoint.value <= p.now && t.checkpoint == Some(p.end)
    requires step.Delivered? || (step.Idle? && step.start == step.end == p.end)
    ensures DeliveredBefore(criteria, t, c) <==>
            forall i :: s.checkpoint.value <= i < p.now && Sendable(s.log[i], criteria) ==> i in s.delivered
  {
    hide SomeGetsThrough, EncodeAll;
    var cleared := AfterWatch(s, p, step).checkpoint.None?;
    assert AfterWatch(s, p, step) == if cleared then s.(checkpoint := None) else s;
    SkippingIsSafeIff(criteria, s, step, t, c, cleared);
  }

  datatype Move = Written(event: Event) | Cycle(p: Poll, r: Result, step: Step)

  /** The source writes and polls interleave, and no token is lost. */
  ghost predicate PollRun(criteria: seq<Criterion>, states: seq<State>, moves: seq<Move>) {
    && |states| == |moves| + 1
    && forall i :: 0 <= i < |moves| ==>
         match moves[i]
         case Written(e) => states[i + 1] == states[i].(log := states[i].log + [e])
         case Cycle(p, r, step) => Polled(criteria, states[i], p, r, step, states[i + 1]) && !p.tokenLost
  }

  /** The steps of the protocol that the moves are. */
  function StepsOf(moves: seq<Move>): seq<Step> {
    seq(|moves|, i requires 0 <= i < |moves| => match moves[i] case Written(e) => SourceWrite(e) case Cycle(_, _, step) => step)
  }

  /** From its first checkpoint on, every run of polls is a run of the protocol. */
  lemma {:induction false} PollsFollowProtocol(criteria: seq<Criterion>, states: seq<State>, moves: seq<Move>, c: nat)
    requires PollRun(criteria, states, moves) && FirstCheckpoint(states[0], c)
    ensures Run(criteria, states, StepsOf(moves))
  {
    hide Polled, Next, Resumed;
    forall i | 0 <= i < |moves|
      ensures Next(criteria, states[i], StepsOf(moves)[i], states[i + 1]) && Resumed(states[i], StepsOf(moves)[i])
    {
      MoveIsStep(criteria, states, moves, c, i);
    }
  }

  lemma {:induction false} MoveIsStep(criteria: seq<Criterion>, states: seq<State>, moves: seq<Move>, c: nat, i: nat)
    requires PollRun(criteria, states, moves) && FirstCheckpoint(states[0], c) && i < |moves|
    ensures states[i].checkpoint.Some?
    ensures Next(criteria, states[i], StepsOf(moves)[i], states[i + 1]) && Resumed(states[i], StepsOf(moves)[i])
  {
    hide Polled;
    if i > 0 {
      MoveIsStep(criteria, states, moves, c, i - 1);
    }
    match moves[i]
    case Written(_) =>
    case Cycle(p, r, step) => PollResumes(criteria, states[i], p, r, step, states[i + 1]);
  }

  // ---------- convergence ----------

  lemma {:induction false} WritesAppend(a: seq<Event>, b: seq<Event>, criteria: seq<Criterion>)
    ensures Writes(a + b, criteria) == Writes(a, criteria) + Writes(b, criteria)
  {
    if b == [] {
      assert a + b == a;
    } else {
      assert (a + b)[..|a + b| - 1] == a + b[..|b| - 1];
      WritesAppend(a, b[..|b| - 1], criteria);
    }
  }

  lemma {:induction false} WriteOrigin(es: seq<Event>, criteria: seq<Criterion>, w: Write) returns (i: nat)
    requires w in Writes(es, criteria)
    ensures i < |es| && WriteOf(es[i], criteria) == Some(w)
  {
    var n := |es| - 1;
    if WriteOf(es[n], criteria) == Some(w) {
      i := n;
    } else {
      i := WriteOrigin(es[..n], criteria, w);
    }
  }

  lemma ReplayMore(criteria: seq<Criterion>, base: Collection, log: seq<Event>, c: nat, p: nat, q: nat)
    requires c <= p <= q <= |log|
    ensures Replay(criteria, base, log, c, q) == Apply(Replay(criteria, base, log, c, p), Writes(log[p..q], criteria))
  {
    assert log[c..q] == log[c..p] + log[p..q];
    WritesAppend(log[c..p], log[p..q], criteria);
    ApplyAppend(base, Writes(log[c..p], criteria), Writes(log[p..q], criteria));
  }

  lemma WritesOne(es: seq<Event>, e: Event, criteria: seq<Criterion>)
    requires WriteOf(e, criteria).Some?
    ensures Writes(es + [e], criteria) == Writes(es, criteria) + [WriteOf(e, criteria).value]
  {
    var more := es + [e];
    assert more[..|more| - 1] == es;
  }

  lemma ApplyOne(c: Collection, ws: seq<Write>, w: Write)
    ensures Apply(c, ws + [w]) == Apply1(Apply(c, ws), w)
  {
    var more := ws + [w];
    assert more[..|more| - 1] == ws;
  }

  lemma ReplayOne(criteria: seq<Criterion>, base: Collection, log: seq<Event>, c: nat, p: nat)
    requires c <= p < |log| && WriteOf(log[p], criteria).Some?
    ensures Replay(criteria, base, log, c, p + 1) == Apply1(Replay(criteria, base, log, c, p), WriteOf(log[p], criteria).value)
  {
    var es := log[c..p];
    assert log[c..p + 1] == es + [log[p]];
    WritesOne(es, log[p], criteria);
    ApplyOne(base, Writes(es, criteria), WriteOf(log[p], criteria).value);
  }

  /** The key holds the value it had in the filtered log at some position between `lo` and `hi`. */
  ghost predicate InWindow(criteria: seq<Criterion>, base: Collection, log: seq<Event>, c: nat,
                           target: Collection, key: Value, lo: nat, hi: nat)
    requires c <= lo && hi <= |log|
  {
    exists p :: lo <= p <= hi && Get(target, key) == Get(Replay(criteria, base, log, c, p), key)
  }

  ghost predicate Converging(criteria: seq<Criterion>, base: Collection, s: State, c: nat) {
    && s.checkpoint.Some? && c <= s.checkpoint.value <= s.furthest <= |s.log|
    && forall key :: InWindow(criteria, base, s.log, c, s.target, key, s.checkpoint.value, s.furthest)
  }

  /** A write of the segment that is the last to touch its key leaves a value the log once had. */
  lemma WriteInWindow(criteria: seq<Criterion>, base: Collection, log: seq<Event>, c: nat, lo: nat, hi: nat, w: Write)
      returns (p: nat)
    requires c <= lo <= hi <= |log| && w in Writes(log[lo..hi], criteria)
    ensures lo <= p <= hi && Get(Replay(criteria, base, log, c, p), w.key) == w.Effect()
  {
    var i := WriteOrigin(log[lo..hi], criteria, w);
    p := lo + i + 1;
    ReplayOne(criteria, base, log, c, p - 1);
  }

  /** Whatever part of a batch a failed send applied, every key stays inside the window. */
  lemma ScatteredStaysInWindow(criteria: seq<Criterion>, base: Collection, s: State, step: Step, t: State, c: nat, key: Value)
    requires Converging(criteria, base, s, c) && (forall e :: e in s.log ==> WireSafe(e))
    requires step.Failed? && Next(criteria, s, step, t) && Resumed(s, step)
    ensures InWindow(criteria, base, t.log, c, t.target, key, t.checkpoint.value, t.furthest)
  {
    var lo, hi := step.start, step.end;
    var ws := Writes(s.log[lo..hi], criteria);
    SentWrites(s.log[lo..hi], criteria);
    var part :| (forall w :: w in part ==> w in TwoPhase(ws)) && t.target == Apply(s.target, part);
    LastWriteWins(s.target, part, key);
    LastWriteIsMember(part, key);
    if LastWrite(part, key).Some? {
      var w := LastWrite(part, key).value;
      PutsAndRemovesMembers(ws);
      var p := WriteInWindow(criteria, base, s.log, c, lo, hi, w);
      assert t.checkpoint.value <= p <= t.furthest;
    } else {
      assert InWindow(criteria, base, s.log, c, s.target, key, s.checkpoint.value, s.furthest);
      var p :| s.checkpoint.value <= p <= s.furthest && Get(s.target, key) == Get(Replay(criteria, base, s.log, c, p), key);
      assert t.checkpoint.value <= p <= t.furthest;
    }
  }

  /** Replaying a resumed segment over the target brings every key to a position at or after its end. */
  lemma ReplayStaysInWindow(criteria: seq<Criterion>, base: Collection, s: State, c: nat, hi: nat, key: Value)
    requires Converging(criteria, base, s, c) && s.checkpoint.value <= hi <= |s.log|
    ensures var after := Apply(s.target, Writes(s.log[s.checkpoint.value..hi], criteria));
            exists p :: hi <= p <= Max(s.furthest, hi) && Get(after, key) == Get(Replay(criteria, base, s.log, c, p), key)
  {
    hide Apply, LastWrite, Writes;
    var lo := s.checkpoint.value;
    var ws := Writes(s.log[lo..hi], criteria);
    var after := Apply(s.target, ws);
    LastWriteWins(s.target, ws, key);
    assert InWindow(criteria, base, s.log, c, s.target, key, lo, s.furthest);
    var p :| lo <= p <= s.furthest && Get(s.target, key) == Get(Replay(criteria, base, s.log, c, p), key);
    if LastWrite(ws, key).Some? {
      ReplayMore(criteria, base, s.log, c, lo, hi);
      LastWriteWins(Replay(criteria, base, s.log, c, lo), ws, key);
      assert Get(after, key) == Get(Replay(criteria, base, s.log, c, hi), key);
    } else if p >= hi {
      assert Get(after, key) == Get(Replay(criteria, base, s.log, c, p), key);
    } else {
      ReplayMore(criteria, base, s.log, c, p, hi);
      assert s.log[lo..hi] == s.log[lo..p] + s.log[p..hi];
      WritesAppend(s.log[lo..p], s.log[p..hi], criteria);
      LastWriteAppend(Writes(s.log[lo..p], criteria), Writes(s.log[p..hi], criteria), key);
      LastWriteWins(Replay(criteria, base, s.log, c, p), Writes(s.log[p..hi], criteria), key);
      assert Get(after, key) == Get(Replay(criteria, base, s.log, c, hi), key);
    }
  }

  /**
   * A delivered batch has the effect of its replay: it revives no key, and each key it does not delete
   * got its last upsert last.
   */
  ghost predicate ActsAsReplay(criteria: seq<Criterion>, s: State, step: Step) {
    step.Delivered? && step.start <= step.end <= |s.log| ==>
      var ws := Writes(s.log[step.start..step.end], criteria);
      NoRevival(ws) && KeepsLastUpserts(ws, step.done)
  }

  /**
   * A batch that revives no key and whose last chunk upserting a key does so in one way only acts as its
   * replay in whatever order its chunks are executed.
   */
  lemma UnambiguousActsAsReplay(criteria: seq<Criterion>, s: State, step: Step, t: State)
    requires step.Delivered? && Next(criteria, s, step, t) && forall e :: e in s.log ==> WireSafe(e)
    requires var ws := Writes(s.log[step.start..step.end], criteria);
             NoRevival(ws) && Unambiguous(ws, BatchChunks(EncodeAll(s.log[step.start..step.end], criteria)))
    ensures ActsAsReplay(criteria, s, step)
  {
    var es := s.log[step.start..step.end];
    SentWrites(es, criteria);
    SentChunks(es, criteria);
    UnambiguousKeepsLast(Writes(es, criteria), BatchChunks(EncodeAll(es, criteria)), step.done);
  }

  /** So does one that revives no key and is executed in list order. */
  lemma ListOrderActsAsReplay(criteria: seq<Criterion>, s: State, step: Step)
    requires step.Delivered? && step.start <= step.end <= |s.log| && forall e :: e in s.log ==> WireSafe(e)
    requires var ws := Writes(s.log[step.start..step.end], criteria); NoRevival(ws) && step.done == TwoPhase(ws)
    ensures ActsAsReplay(criteria, s, step)
  {
    SentChunks(s.log[step.start..step.end], criteria);
    InListOrder(Writes(s.log[step.start..step.end], criteria), BatchChunks(EncodeAll(s.log[step.start..step.end], criteria)));
  }

  lemma ConvergingStep(criteria: seq<Criterion>, base: Collection, s: State, step: Step, t: State, c: nat)
    requires Converging(criteria, base, s, c) && (forall e :: e in t.log ==> WireSafe(e))
    requires Next(criteria, s, step, t) && Resumed(s, step) && ActsAsReplay(criteria, s, step)
    ensures Converging(criteria, base, t, c)
  {
    hide Scattered, BatchExecuted, Apply, Writes, ActsAsReplay;
    match step
    case SourceWrite(e) =>
      forall key ensures InWindow(criteria, base, t.log, c, t.target, key, t.checkpoint.value, t.furthest) {
        assert InWindow(criteria, base, s.log, c, s.target, key, s.checkpoint.value, s.furthest);
        var p :| s.checkpoint.value <= p <= s.furthest && Get(s.target, key) == Get(Replay(criteria, base, s.log, c, p), key);
        assert t.log[c..p] == s.log[c..p];
        assert Get(t.target, key) == Get(Replay(criteria, base, t.log, c, p), key);
      }
    case Idle(start, end) =>
      forall key ensures InWindow(criteria, base, t.log, c, t.target, key, t.checkpoint.value, t.furthest) {
        assert InWindow(criteria, base, s.log, c, s.target, key, s.checkpoint.value, s.furthest);
      }
    case Failed(start, end) =>
      forall key ensures InWindow(criteria, base, t.log, c, t.target, key, t.checkpoint.value, t.furthest) {
        ScatteredStaysInWindow(criteria, base, s, step, t, c, key);
      }
    case Delivered(start, end, done) =>
      DeliveredAsReplay(criteria, s, step, t);
      forall key ensures InWindow(criteria, base, t.log, c, t.target, key, t.checkpoint.value, t.furthest) {
        ReplayStaysInWindow(criteria, base, s, c, end, key);
      }
  }

  /** A delivered batch has the effect of replaying its segment exactly if it acts as its replay. */
  lemma DeliveredAsReplay(criteria: seq<Criterion>, s: State, step: Step, t: State)
    requires step.Delivered? && Next(criteria, s, step, t) && forall e :: e in s.log ==> WireSafe(e)
    ensures t.target == Apply(s.target, Writes(s.log[step.start..step.end], criteria)) <==> ActsAsReplay(criteria, s, step)
  {
    hide Executed, CutsUpserts, Apply, Writes, NoRevival, KeepsLastUpserts, BatchChunks;
    var es := s.log[step.start..step.end];
    SentWrites(es, criteria);
    SentChunks(es, criteria);
    ExecutionRefinesReplayIff(s.target, Writes(es, criteria), BatchChunks(EncodeAll(es, criteria)), step.done);
  }

  lemma StepGrowsLog(criteria: seq<Criterion>, s: State, step: Step, t: State)
    requires Next(criteria, s, step, t)
    ensures s.log <= t.log
  {
    hide Scattered, BatchExecuted;
  }

  lemma {:induction false} LogGrows(criteria: seq<Criterion>, states: seq<State>, steps: seq<Step>, i: nat, j: nat)
    requires Run(criteria, states, steps) && i <= j < |states|
    ensures states[i].log <= states[j].log
  {
    hide Next;
    if i < j {
      LogGrows(criteria, states, steps, i, j - 1);
      StepGrowsLog(criteria, states[j - 1], steps[j - 1], states[j]);
    }
  }

  /**
   * Convergence: if the target starts as the source's content at the first checkpoint, then in every
   * reachable state each key holds the value it had in the filtered log somewhere between the
   * checkpoint and the furthest position read, although failed sends applied any part of their batches.
   */
  lemma {:induction false} Convergence(criteria: seq<Criterion>, states: seq<State>, steps: seq<Step>, c: nat, n: nat)
    requires Run(criteria, states, steps) && FirstCheckpoint(states[0], c) && n < |states|
    requires forall e :: e in states[n].log ==> WireSafe(e)
    requires forall i :: 0 <= i < n ==> ActsAsReplay(criteria, states[i], steps[i])
    ensures Converging(criteria, states[0].target, states[n], c)
  {
    var base := states[0].target;
    if n == 0 {
      assert base == Replay(criteria, base, states[0].log, c, c);
      forall key ensures InWindow(criteria, base, states[0].log, c, base, key, c, c) {
        assert Get(base, key) == Get(Replay(criteria, base, states[0].log, c, c), key);
      }
    } else {
      LogGrows(criteria, states, steps, n - 1, n);
      forall e | e in states[n - 1].log ensures WireSafe(e) {
        assert e in states[n].log;
      }
      Convergence(criteria, states, steps, c, n - 1);
      ConvergingStep(criteria, base, states[n - 1], steps[n - 1], states[n], c);
    }
  }

  /** Once the checkpoint has reached the end of the log, the target is the full replay of the log. */
  lemma CaughtUp(criteria: seq<Criterion>, states: seq<State>, steps: seq<Step>, c: nat, n: nat)
    requires Run(criteria, states, steps) && FirstCheckpoint(states[0], c) && n < |states|
    requires forall e :: e in states[n].log ==> WireSafe(e)
    requires forall i :: 0 <= i < n ==> ActsAsReplay(criteria, states[i], steps[i])
    requires states[n].checkpoint == Some(|states[n].log|)
    ensures c <= |states[n].log|
    ensures states[n].target == Replay(criteria, states[0].target, states[n].log, c, |states[n].log|)
  {
    Convergence(criteria, states, steps, c, n);
    var s, base := states[n], states[0].target;
    forall key ensures Get(s.target, key) == Get(Replay(criteria, base, s.log, c, |s.log|), key) {
      assert InWindow(criteria, base, s.log, c, s.target, key, |s.log|, s.furthest);
    }
    SameContents(s.target, Replay(criteria, base, s.log, c, |s.log|));
  }

  lemma ReplayReaches(criteria: seq<Criterion>, base: Collection, s: State, c: nat, hi: nat)
    requires Converging(criteria, base, s, c) && s.checkpoint.value <= hi <= |s.log| && s.furthest <= hi
    ensures Apply(s.target, Writes(s.log[s.checkpoint.value..hi], criteria)) == Replay(criteria, base, s.log, c, hi)
  {
    var after := Apply(s.target, Writes(s.log[s.checkpoint.value..hi], criteria));
    forall key ensures Get(after, key) == Get(Replay(criteria, base, s.log, c, hi), key) {
      ReplayStaysInWindow(criteria, base, s, c, hi, key);
    }
    SameContents(after, Replay(criteria, base, s.log, c, hi));
  }

  /**
   * The condition is exact: a delivered batch that reaches the furthest position read brings the
   * target to the replayed state if and only if it revives no key and each key it does not delete got its
   * last upsert last.
   */
  lemma DeliveryIsExact(criteria: seq<Criterion>, base: Collection, s: State, step: Step, t: State, c: nat)
    requires Converging(criteria, base, s, c) && (forall e :: e in s.log ==> WireSafe(e))
    requires step.Delivered? && Next(criteria, s, step, t) && Resumed(s, step) && t.furthest == step.end
    ensures t.target == Replay(criteria, base, s.log, c, step.end) <==> ActsAsReplay(criteria, s, step)
  {
    DeliveredAsReplay(criteria, s, step, t);
    ReplayReaches(criteria, base, s, c, step.end);
  }
}
