/** Writes to a collection, and what a sequence of them leaves behind. */
module ChangeLog {
  import opened Common
  import opened Documents

  /** One write model of a bulk write: replace-with-upsert, or delete-one by `_id`. */
  datatype Write = Put(key: Value, doc: Document) | Remove(key: Value) {
    /** What the write leaves under its key. */
    function Effect(): Option<Document> {
      if Put? then Some(doc) else None
    }
  }

  function Apply1(c: Collection, w: Write): Collection {
    match w
    case Put(key, doc) => c[key := doc]
    case Remove(key) => c - {key}
  }

  /** The writes `ws`, executed in list order. */
  function Apply(c: Collection, ws: seq<Write>): Collection {
    if ws == [] then c else Apply1(Apply(c, ws[..|ws| - 1]), ws[|ws| - 1])
  }

  /** The last write of `ws` to `key`, if there is one. */
  function LastWrite(ws: seq<Write>, key: Value): Option<Write> {
    if ws == [] then None
    else if ws[|ws| - 1].key == key then Some(ws[|ws| - 1])
    else LastWrite(ws[..|ws| - 1], key)
  }

  /** The upserts of a batch, then its deletes: the order the VM side uses. */
  function Puts(ws: seq<Write>): seq<Write> {
    if ws == [] then []
    else Puts(ws[..|ws| - 1]) + if ws[|ws| - 1].Put? then [ws[|ws| - 1]] else []
  }

  function Removes(ws: seq<Write>): seq<Write> {
    if ws == [] then []
    else Removes(ws[..|ws| - 1]) + if ws[|ws| - 1].Remove? then [ws[|ws| - 1]] else []
  }

  function TwoPhase(ws: seq<Write>): seq<Write> {
    Puts(ws) + Removes(ws)
  }

  // ---------- last writer wins ----------

  /** After a batch, a key holds the effect of the last write to it, or what it held before. */
  lemma {:induction false} LastWriteWins(c: Collection, ws: seq<Write>, key: Value)
    ensures Get(Apply(c, ws), key) ==
            match LastWrite(ws, key) case None => Get(c, key) case Some(w) => w.Effect()
  {
    if ws != [] {
      LastWriteWins(c, ws[..|ws| - 1], key);
    }
  }

  lemma {:induction false} LastWriteIsMember(ws: seq<Write>, key: Value)
    ensures LastWrite(ws, key).Some? ==> LastWrite(ws, key).value in ws && LastWrite(ws, key).value.key == key
    ensures LastWrite(ws, key).None? ==> forall w :: w in ws ==> w.key != key
  {
    if ws != [] {
      LastWriteIsMember(ws[..|ws| - 1], key);
      assert ws == ws[..|ws| - 1] + [ws[|ws| - 1]];
    }
  }

  lemma {:induction false} LastWriteAppend(a: seq<Write>, b: seq<Write>, key: Value)
    ensures LastWrite(a + b, key) == if LastWrite(b, key).Some? then LastWrite(b, key) else LastWrite(a, key)
  {
    if b == [] {
      assert a + b == a;
    } else {
      assert (a + b)[..|a + b| - 1] == a + b[..|b| - 1];
      LastWriteAppend(a, b[..|b| - 1], key);
    }
  }

  lemma {:induction false} ApplyAppend(c: Collection, a: seq<Write>, b: seq<Write>)
    ensures Apply(c, a + b) == Apply(Apply(c, a), b)
  {
    if b == [] {
      assert a + b == a;
    } else {
      assert (a + b)[..|a + b| - 1] == a + b[..|b| - 1];
      ApplyAppend(c, a, b[..|b| - 1]);
    }
  }

  /** Two collections that agree under every key are the same collection. */
  lemma SameContents(c: Collection, d: Collection)
    requires forall key :: Get(c, key) == Get(d, key)
    ensures c == d
  {
    forall key ensures key in c <==> key in d {
      assert Get(c, key) == Get(d, key);
    }
    forall key | key in c ensures c[key] == d[key] {
      assert Get(c, key) == Get(d, key);
    }
  }

  // ---------- two-phase application against replay ----------

  /** No upsert of a key follows a delete of that key unless a later delete follows the upsert. */
  ghost predicate NoRevival(ws: seq<Write>) {
    forall i, j :: 0 <= i < j < |ws| && ws[i].Remove? && ws[j].Put? && ws[i].key == ws[j].key ==>
      exists l :: j < l < |ws| && ws[l] == Remove(ws[j].key)
  }

  lemma {:induction false} PutsAndRemovesMembers(ws: seq<Write>)
    ensures forall w :: w in Puts(ws) <==> w in ws && w.Put?
    ensures forall w :: w in Removes(ws) <==> w in ws && w.Remove?
  {
    if ws != [] {
      PutsAndRemovesMembers(ws[..|ws| - 1]);
      assert ws == ws[..|ws| - 1] + [ws[|ws| - 1]];
    }
  }

  lemma {:induction false} PutsKeepLast(ws: seq<Write>, key: Value)
    requires Remove(key) !in ws
    ensures LastWrite(Puts(ws), key) == LastWrite(ws, key)
  {
    if ws != [] {
      var n := |ws| - 1;
      assert ws == ws[..n] + [ws[n]];
      PutsKeepLast(ws[..n], key);
      LastWriteAppend(Puts(ws[..n]), if ws[n].Put? then [ws[n]] else [], key);
      if ws[n].Put? {
        assert LastWrite([ws[n]], key) == if ws[n].key == key then Some(ws[n]) else LastWrite([ws[n]][..0], key);
      }
    }
  }

  /** In the two-phase order a key ends deleted as soon as the batch deletes it anywhere. */
  lemma TwoPhaseLast(ws: seq<Write>, key: Value)
    ensures LastWrite(TwoPhase(ws), key) ==
            if Remove(key) in ws then Some(Remove(key)) else LastWrite(ws, key)
  {
    PutsAndRemovesMembers(ws);
    LastWriteAppend(Puts(ws), Removes(ws), key);
    LastWriteIsMember(Removes(ws), key);
    if Remove(key) !in ws {
      PutsKeepLast(ws, key);
    } else {
      var last := LastWrite(Removes(ws), key);
      assert Remove(key) in Removes(ws);
      assert last.Some? && last.value in Removes(ws) && last.value.Remove?;
    }
  }

  lemma {:induction false} LastWriteAt(ws: seq<Write>, key: Value) returns (j: nat)
    requires LastWrite(ws, key).Some?
    ensures j < |ws| && ws[j] == LastWrite(ws, key).value && ws[j].key == key
    ensures forall l :: j < l < |ws| ==> ws[l].key != key
  {
    if ws[|ws| - 1].key == key {
      j := |ws| - 1;
    } else {
      j := LastWriteAt(ws[..|ws| - 1], key);
    }
  }

  lemma NoRevivalLast(ws: seq<Write>)
    ensures NoRevival(ws) <==> forall key :: Remove(key) in ws ==> LastWrite(ws, key) == Some(Remove(key))
  {
    if NoRevival(ws) {
      forall key | Remove(key) in ws ensures LastWrite(ws, key) == Some(Remove(key)) {
        LastWriteIsMember(ws, key);
        var j := LastWriteAt(ws, key);
        var i :| 0 <= i < |ws| && ws[i] == Remove(key);
        assert i <= j;
        if ws[j].Put? {
          assert false;
        }
      }
    }
    if forall key :: Remove(key) in ws ==> LastWrite(ws, key) == Some(Remove(key)) {
      forall i, j | 0 <= i < j < |ws| && ws[i].Remove? && ws[j].Put? && ws[i].key == ws[j].key
        ensures exists l :: j < l < |ws| && ws[l] == Remove(ws[j].key)
      {
        assert ws[i] == Remove(ws[j].key);
        var l := LastWriteAt(ws, ws[j].key);
        assert l >= j && l != j;
      }
    }
  }

  /**
   * Applying all upserts and then all deletes gives the same collection as replaying the writes
   * one by one exactly when the batch never revives a deleted key, whatever the collection held.
   */
  lemma TwoPhaseRefinesReplay(c: Collection, ws: seq<Write>)
    ensures Apply(c, TwoPhase(ws)) == Apply(c, ws) <==> NoRevival(ws)
  {
    NoRevivalLast(ws);
    forall key
      ensures Get(Apply(c, TwoPhase(ws)), key) == Get(Apply(c, ws), key) <==>
              (Remove(key) in ws ==> LastWrite(ws, key) == Some(Remove(key)))
    {
      TwoPhaseLast(ws, key);
      LastWriteIsMember(ws, key);
      LastWriteWins(c, ws, key);
      LastWriteWins(c, TwoPhase(ws), key);
      if Remove(key) in ws {
        assert LastWrite(ws, key).Some?;
        var w := LastWrite(ws, key).value;
        assert w.Put? || w == Remove(key);
      }
    }
    if NoRevival(ws) {
      SameContents(Apply(c, TwoPhase(ws)), Apply(c, ws));
    }
  }

  /** A delete followed by a re-insert of the same key is lost by the two-phase order. */
  lemma RevivalIsLost(c: Collection, key: Value, doc: Document)
    ensures var ws := [Remove(key), Put(key, doc)];
            && key in Apply(c, ws)
            && key !in Apply(c, TwoPhase(ws))
  {
    var ws := [Remove(key), Put(key, doc)];
    TwoPhaseLast(ws, key);
    assert ws[0] == Remove(key);
    LastWriteWins(c, TwoPhase(ws), key);
    LastWriteWins(c, ws, key);
  }

  // ---------- execution order inside an unordered bulk write ----------

  ghost predicate Reordering(a: seq<Write>, b: seq<Write>) {
    multiset(a) == multiset(b)
  }

  lemma {:induction false} MoveToEnd(ws: seq<Write>, i: nat) returns (r: seq<Write>)
    requires i < |ws|
    ensures r != [] && r[|r| - 1] == ws[i] && Reordering(ws, r)
  {
    r := ws[..i] + ws[i + 1..] + [ws[i]];
    assert ws == ws[..i] + [ws[i]] + ws[i + 1..];
  }

  /**
   * An unordered bulk write is insensitive to its execution order exactly when no two of its
   * writes to one key differ.
   */
  lemma OrderIrrelevant(c: Collection, ws: seq<Write>)
    ensures (forall r | Reordering(ws, r) :: Apply(c, r) == Apply(c, ws)) <==>
            (forall v, w | v in ws && w in ws && v.key == w.key :: v == w)
  {
    if forall v, w | v in ws && w in ws && v.key == w.key :: v == w {
      forall r | Reordering(ws, r) ensures Apply(c, r) == Apply(c, ws) {
        forall w ensures w in r <==> w in ws {
          assert w in r <==> w in multiset(r);
          assert w in ws <==> w in multiset(ws);
        }
        forall key ensures Get(Apply(c, r), key) == Get(Apply(c, ws), key) {
          LastWriteWins(c, r, key);
          LastWriteWins(c, ws, key);
          LastWriteIsMember(r, key);
          LastWriteIsMember(ws, key);
        }
        SameContents(Apply(c, r), Apply(c, ws));
      }
    } else {
      var v, w :| v in ws && w in ws && v.key == w.key && v != w;
      var i :| 0 <= i < |ws| && ws[i] == v;
      var j :| 0 <= j < |ws| && ws[j] == w;
      var a := MoveToEnd(ws, i);
      var b := MoveToEnd(ws, j);
      LastWriteWins(c, a, v.key);
      LastWriteWins(c, b, v.key);
      assert v.Effect() != w.Effect();
      assert Apply(c, a) != Apply(c, b);
    }
  }

  lemma {:induction false} ReorderingMembers(a: seq<Write>, b: seq<Write>)
    requires Reordering(a, b)
    ensures |a| == |b| && forall w :: w in a <==> w in b
  {
    assert |multiset(a)| == |a| && |multiset(b)| == |b|;
    forall w ensures w in a <==> w in b {
      assert w in a <==> w in multiset(a);
      assert w in b <==> w in multiset(b);
    }
  }

  function Flatten(chunks: seq<seq<Write>>): seq<Write> {
    if chunks == [] then [] else Flatten(chunks[..|chunks| - 1]) + chunks[|chunks| - 1]
  }

  /** The chunks one after the other, each in some order of its writes. */
  ghost predicate InChunks(chunks: seq<seq<Write>>, done: seq<Write>) {
    if chunks == [] then done == []
    else
      var last := chunks[|chunks| - 1];
      && |last| <= |done|
      && InChunks(chunks[..|chunks| - 1], done[..|done| - |last|])
      && Reordering(last, done[|done| - |last|..])
  }

  /** The chunks of upserts, then all deletes in some order. */
  ghost predicate Executed(ups: seq<seq<Write>>, dels: seq<Write>, done: seq<Write>) {
    && |dels| <= |done|
    && InChunks(ups, done[..|done| - |dels|])
    && Reordering(dels, done[|done| - |dels|..])
  }

  /** The upserts of the writes, cut into chunks. */
  ghost predicate CutsUpserts(ws: seq<Write>, ups: seq<seq<Write>>) {
    Flatten(ups) == Puts(ws)
  }

  /** Each key the writes do not delete is last written, as executed, by the last write to it in the log. */
  ghost predicate KeepsLastUpserts(ws: seq<Write>, done: seq<Write>) {
    forall key :: Remove(key) !in ws ==> LastWrite(done, key) == LastWrite(ws, key)
  }

  /** The last chunk that writes the key. */
  function LastChunk(chunks: seq<seq<Write>>, key: Value): (chunk: seq<Write>)
    ensures chunk == [] || LastWrite(chunk, key).Some?
  {
    if chunks == [] then []
    else if LastWrite(chunks[|chunks| - 1], key).Some? then chunks[|chunks| - 1]
    else LastChunk(chunks[..|chunks| - 1], key)
  }

  /** For each key the writes do not delete, the last chunk that upserts it holds no two different upserts of it. */
  ghost predicate Unambiguous(ws: seq<Write>, ups: seq<seq<Write>>) {
    forall key, v, w | v in LastChunk(ups, key) && w in LastChunk(ups, key) ::
      Remove(key) !in ws && v.key == key && w.key == key ==> v == w
  }

  lemma ReorderingAppend(a: seq<Write>, b: seq<Write>, done: seq<Write>, more: seq<Write>)
    requires Reordering(a, done) && Reordering(b, more)
    ensures Reordering(a + b, done + more)
  {
  }

  lemma {:induction false} InChunksReorders(chunks: seq<seq<Write>>, done: seq<Write>)
    requires InChunks(chunks, done)
    ensures Reordering(Flatten(chunks), done)
  {
    if chunks != [] {
      var last := chunks[|chunks| - 1];
      var k := |done| - |last|;
      InChunksReorders(chunks[..|chunks| - 1], done[..k]);
      ReorderingAppend(Flatten(chunks[..|chunks| - 1]), last, done[..k], done[k..]);
      assert done == done[..k] + done[k..];
    }
  }

  /** The last write to a key, as executed, is one of the last chunk that writes it. */
  lemma {:induction false} InChunksLast(chunks: seq<seq<Write>>, done: seq<Write>, key: Value)
    requires InChunks(chunks, done)
    ensures LastWrite(done, key).Some? <==> LastChunk(chunks, key) != []
    ensures LastWrite(done, key).Some? ==> LastWrite(done, key).value in LastChunk(chunks, key)
  {
    if chunks != [] {
      var last := chunks[|chunks| - 1];
      var first, second := done[..|done| - |last|], done[|done| - |last|..];
      assert done == first + second;
      LastWriteAppend(first, second, key);
      InChunksLast(chunks[..|chunks| - 1], first, key);
      ReorderingMembers(last, second);
      LastWriteIsMember(second, key);
      LastWriteIsMember(last, key);
    }
  }

  /** In list order the chunks are executed as they are. */
  lemma {:induction false} InChunksAsListed(chunks: seq<seq<Write>>)
    ensures InChunks(chunks, Flatten(chunks))
  {
    if chunks != [] {
      var init, last, all := chunks[..|chunks| - 1], chunks[|chunks| - 1], Flatten(chunks);
      InChunksAsListed(init);
      assert all[..|all| - |last|] == Flatten(init) && all[|all| - |last|..] == last;
    }
  }

  lemma InChunksAppend(chunks: seq<seq<Write>>, done: seq<Write>, chunk: seq<Write>, more: seq<Write>)
    requires InChunks(chunks, done) && Reordering(chunk, more)
    ensures InChunks(chunks + [chunk], done + more)
  {
    ReorderingMembers(chunk, more);
    assert (chunks + [chunk])[..|chunks|] == chunks;
    var all := done + more;
    assert all[..|all| - |chunk|] == done && all[|all| - |chunk|..] == more;
  }

  /** An execution in chunks that performs the given write of a key's last chunk as the last one to the key. */
  lemma {:induction false} InChunksEndingWith(chunks: seq<seq<Write>>, w: Write) returns (done: seq<Write>)
    requires w in LastChunk(chunks, w.key)
    ensures InChunks(chunks, done) && LastWrite(done, w.key) == Some(w)
  {
    var n := |chunks| - 1;
    var init, last := chunks[..n], chunks[n];
    assert chunks == init + [last];
    if LastWrite(last, w.key).Some? {
      var i :| 0 <= i < |last| && last[i] == w;
      var more := MoveToEnd(last, i);
      InChunksAsListed(init);
      InChunksAppend(init, Flatten(init), last, more);
      LastWriteAppend(Flatten(init), more, w.key);
      done := Flatten(init) + more;
    } else {
      var first := InChunksEndingWith(init, w);
      InChunksAppend(init, first, last, last);
      LastWriteAppend(first, last, w.key);
      done := first + last;
    }
  }

  /** An unordered two-phase execution ends a key deleted as soon as the batch deletes it anywhere. */
  lemma ExecutedLast(ws: seq<Write>, ups: seq<seq<Write>>, done: seq<Write>, key: Value)
    requires CutsUpserts(ws, ups) && Executed(ups, Removes(ws), done)
    ensures Remove(key) in ws ==> LastWrite(done, key) == Some(Remove(key))
    ensures LastWrite(done, key).None? <==> LastWrite(ws, key).None?
    ensures Remove(key) !in ws && LastWrite(ws, key).Some? ==>
              LastWrite(done, key).value in LastChunk(ups, key) && LastWrite(ws, key).value in LastChunk(ups, key)
  {
    hide InChunks;
    var k := |done| - |Removes(ws)|;
    var a, b := done[..k], done[k..];
    assert done == a + b;
    PutsAndRemovesMembers(ws);
    InChunksReorders(ups, a);
    ReorderingMembers(Puts(ws), a);
    ReorderingMembers(Removes(ws), b);
    LastWriteAppend(a, b, key);
    LastWriteIsMember(a, key);
    LastWriteIsMember(b, key);
    LastWriteIsMember(ws, key);
    if Remove(key) in ws {
      assert Remove(key) in b;
    } else {
      InChunksLast(ups, a, key);
      InChunksAsListed(ups);
      InChunksLast(ups, Puts(ws), key);
      PutsKeepLast(ws, key);
    }
  }

  /**
   * The database may execute each bulk write in any order.  The batch still has the effect of its replay
   * exactly if it revives no key and each key it does not delete gets its last upsert last.
   */
  lemma ExecutionRefinesReplayIff(c: Collection, ws: seq<Write>, ups: seq<seq<Write>>, done: seq<Write>)
    requires CutsUpserts(ws, ups) && Executed(ups, Removes(ws), done)
    ensures Apply(c, done) == Apply(c, ws) <==> NoRevival(ws) && KeepsLastUpserts(ws, done)
  {
    hide Executed, NoRevival, CutsUpserts;
    NoRevivalLast(ws);
    forall key
      ensures Get(Apply(c, done), key) == Get(Apply(c, ws), key) <==> LastWrite(done, key) == LastWrite(ws, key)
      ensures Remove(key) in ws ==> LastWrite(done, key) == Some(Remove(key))
    {
      ExecutedLast(ws, ups, done, key);
      LastWriteIsMember(ws, key);
      LastWriteIsMember(done, key);
      LastWriteWins(c, ws, key);
      LastWriteWins(c, done, key);
    }
    if NoRevival(ws) && KeepsLastUpserts(ws, done) {
      SameContents(Apply(c, done), Apply(c, ws));
    }
  }

  /**
   * Every execution of the chunks has the effect of the replay exactly if the batch revives no key and,
   * for each key it does not delete, the last chunk that upserts it does so in one way only.
   */
  lemma EveryExecutionRefinesReplayIff(c: Collection, ws: seq<Write>, ups: seq<seq<Write>>)
    requires CutsUpserts(ws, ups)
    ensures (forall done | Executed(ups, Removes(ws), done) :: Apply(c, done) == Apply(c, ws))
            <==> NoRevival(ws) && Unambiguous(ws, ups)
  {
    hide NoRevival, Executed, CutsUpserts;
    if NoRevival(ws) && Unambiguous(ws, ups) {
      forall done | Executed(ups, Removes(ws), done) ensures Apply(c, done) == Apply(c, ws) {
        UnambiguousKeepsLast(ws, ups, done);
        ExecutionRefinesReplayIff(c, ws, ups, done);
      }
    } else if !NoRevival(ws) {
      InListOrder(ws, ups);
      ExecutionRefinesReplayIff(c, ws, ups, TwoPhase(ws));
    } else {
      var key, v, w :| Remove(key) !in ws && v in LastChunk(ups, key) && w in LastChunk(ups, key)
                       && v.key == key && w.key == key && v != w;
      var first := UpsertLast(ws, ups, v);
      var second := UpsertLast(ws, ups, w);
      ExecutionRefinesReplayIff(c, ws, ups, first);
      ExecutionRefinesReplayIff(c, ws, ups, second);
    }
  }

  lemma UnambiguousKeepsLast(ws: seq<Write>, ups: seq<seq<Write>>, done: seq<Write>)
    requires CutsUpserts(ws, ups) && Executed(ups, Removes(ws), done) && Unambiguous(ws, ups)
    ensures KeepsLastUpserts(ws, done)
  {
    hide Executed, CutsUpserts;
    forall key | Remove(key) !in ws ensures LastWrite(done, key) == LastWrite(ws, key) {
      ExecutedLast(ws, ups, done, key);
      LastWriteIsMember(ws, key);
      LastWriteIsMember(done, key);
    }
  }

  lemma ExecutedInPhases(ups: seq<seq<Write>>, dels: seq<Write>, first: seq<Write>, second: seq<Write>)
    requires InChunks(ups, first) && Reordering(dels, second)
    ensures Executed(ups, dels, first + second)
  {
    ReorderingMembers(dels, second);
    var all := first + second;
    assert all[..|all| - |dels|] == first && all[|all| - |dels|..] == second;
  }

  lemma InListOrder(ws: seq<Write>, ups: seq<seq<Write>>)
    requires CutsUpserts(ws, ups)
    ensures Executed(ups, Removes(ws), TwoPhase(ws)) && KeepsLastUpserts(ws, TwoPhase(ws))
  {
    hide InChunks;
    InChunksAsListed(ups);
    ExecutedInPhases(ups, Removes(ws), Puts(ws), Removes(ws));
    forall key | Remove(key) !in ws ensures LastWrite(TwoPhase(ws), key) == LastWrite(ws, key) {
      TwoPhaseLast(ws, key);
    }
  }

  /** An execution that performs the given upsert of a key's last chunk as the last one to the key. */
  lemma UpsertLast(ws: seq<Write>, ups: seq<seq<Write>>, w: Write) returns (done: seq<Write>)
    requires CutsUpserts(ws, ups) && w in LastChunk(ups, w.key) && Remove(w.key) !in ws
    ensures Executed(ups, Removes(ws), done) && LastWrite(done, w.key) == Some(w)
  {
    hide InChunks;
    PutsAndRemovesMembers(ws);
    var first := InChunksEndingWith(ups, w);
    ExecutedInPhases(ups, Removes(ws), first, Removes(ws));
    done := first + Removes(ws);
    LastWriteAppend(first, Removes(ws), w.key);
    LastWriteIsMember(Removes(ws), w.key);
  }

  // ---------- re-delivery ----------

  /** Re-applying a suffix of writes that are already in the collection changes nothing. */
  lemma SuffixReplayIsIdempotent(c: Collection, ws: seq<Write>, from: nat)
    requires from <= |ws|
    ensures Apply(Apply(c, ws), ws[from..]) == Apply(c, ws)
  {
    assert ws == ws[..from] + ws[from..];
    forall key ensures Get(Apply(Apply(c, ws), ws[from..]), key) == Get(Apply(c, ws), key) {
      LastWriteAppend(ws[..from], ws[from..], key);
      LastWriteWins(Apply(c, ws), ws[from..], key);
      LastWriteWins(c, ws, key);
    }
    SameContents(Apply(Apply(c, ws), ws[from..]), Apply(c, ws));
  }

  /** Through the two-phase order a re-delivered suffix changes nothing exactly if it revives no key. */
  lemma SuffixRedeliveryIsIdempotent(c: Collection, ws: seq<Write>, from: nat)
    requires from <= |ws|
    ensures Apply(Apply(c, ws), TwoPhase(ws[from..])) == Apply(c, ws) <==> NoRevival(ws[from..])
  {
    TwoPhaseRefinesReplay(Apply(c, ws), ws[from..]);
    SuffixReplayIsIdempotent(c, ws, from);
  }
}
