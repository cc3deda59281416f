/** Page-wise bulk transfer of a collection over TCP and its resumption from the tracked count. */
module PageResume {
  import opened Common

  /**
   * What becomes of one page: sent and tracked, sent with the tracker update lost, or failed, which may
   * have delivered part of the page but counts as not sent.
   */
  datatype Delivery = Tracked | Untracked | Refused

  /** The tracker's count and completion mark, and the documents sent, by their place in the order. */
  datatype Progress = Progress(transferred: nat, completed: bool, sent: set<nat>)

  /** The adaptive batch size, or 1000 when there is none. */
  function PageSize(batchSize: int): (ps: nat)
    ensures ps > 0 && (batchSize > 0 ==> ps == batchSize) && (batchSize <= 0 ==> ps == 1000)
  {
    if batchSize <= 0 then 1000 else batchSize
  }

  function TotalPages(total: nat, ps: nat): (n: nat)
    requires ps > 0
    ensures n > 0
  {
    if total == 0 then 1 else (total - 1) / ps + 1
  }

  /** Documents before the page; pages count from one. */
  function Skip(page: nat, ps: nat): nat
    requires page > 0
  {
    (page - 1) * ps
  }

  function PageDocuments(page: nat, ps: nat, total: nat): set<nat>
    requires page > 0
  {
    Range(Skip(page, ps), Min(Skip(page, ps) + ps, total))
  }

  function PageCount(page: nat, ps: nat, total: nat): nat
    requires page > 0
  {
    Min(Skip(page, ps) + ps, total) - Min(Skip(page, ps), total)
  }

  function AfterPage(s: Progress, total: nat, page: nat, ps: nat, delivery: Delivery): Progress
    requires page > 0
  {
    var sent := s.sent + PageDocuments(page, ps, total);
    match delivery
    case Refused => s
    case Untracked => s.(sent := sent)
    case Tracked =>
      if PageCount(page, ps, total) == 0 then s
      else Progress(s.transferred + PageCount(page, ps, total), false, sent)
  }

  /** Pushing the pages from `page` to `last`; the second result says whether all of them were sent. */
  function PushPages(s: Progress, total: nat, page: nat, last: nat, ps: nat, outcome: nat -> Delivery): (Progress, bool)
    requires page > 0
    decreases last + 1 - page
  {
    if page > last then (s, true)
    else if outcome(page).Refused? then (s, false)
    else PushPages(AfterPage(s, total, page, ps, outcome(page)), total, page + 1, last, ps, outcome)
  }

  /** A full push; `marked` says whether the completion mark reaches the tracker. */
  function FullPush(s: Progress, total: nat, ps: nat, outcome: nat -> Delivery, marked: bool): (Progress, bool)
    requires ps > 0
  {
    if total == 0 then (s, true)
    else
      var (after, ok) := PushPages(s, total, 1, TotalPages(total, ps), ps, outcome);
      (if ok && marked then after.(completed := true) else after, ok)
  }

  /**
   * What one sync attempt meets: the batch size, whether a full sync is forced, whether the tracker can be
   * read at first and the resume request succeeds, whether the checkpoint probe and the second reading
   * succeed, whether a fresh start clears the target, the fate of each page, and whether the completion
   * mark reaches the tracker.
   */
  datatype Try = Try(
    batchSize: int, forced: bool, readable: bool, resumable: bool, probed: bool, cleared: bool,
    outcome: nat -> Delivery, marked: bool)

  /** The attempt finds an unfinished record with at least one page in it, and uses it. */
  predicate Resumes(s: Progress, t: Try) {
    FindsRecord(s, t) && t.resumable
  }

  predicate FindsRecord(s: Progress, t: Try) {
    !t.forced && t.readable && !s.completed && s.transferred / PageSize(t.batchSize) > 0
  }

  /** The page the tracked count points at. */
  function FirstPage(s: Progress, t: Try): nat {
    s.transferred / PageSize(t.batchSize)
  }

  /** One sync attempt: a resumption, or a full push, which happens for four different reasons. */
  function Attempt(s: Progress, total: nat, t: Try): (Progress, bool) {
    var ps := PageSize(t.batchSize);
    if Resumes(s, t) then
      if FirstPage(s, t) > TotalPages(total, ps) then (s, true)
      else PushPages(s, total, FirstPage(s, t), TotalPages(total, ps), ps, t.outcome)
    else if t.forced || FindsRecord(s, t) || !t.probed then FullPush(s, total, ps, t.outcome, t.marked)
    else if s.completed then (s, true)
    else FullPush(if t.cleared then s.(sent := {}) else s, total, ps, t.outcome, t.marked)
  }

  // ---------- the pusher ----------

  class InitialSync {
    const total: nat
    var totalTransferred: nat
    var completed: bool
    var transferredDocs: nat
    var recorded: bool
    ghost var sent: set<nat>

    /** Without a tracker record nothing has been tracked. */
    predicate Valid()
      reads this
    {
      !recorded ==> totalTransferred == 0 && !completed
    }

    ghost function State(): Progress
      reads this
    {
      Progress(totalTransferred, completed, sent)
    }

    constructor (total: nat)
      ensures this.total == total && State() == Progress(0, false, {}) && Valid()
    {
      this.total, totalTransferred, completed, transferredDocs, recorded, sent := total, 0, false, 0, false, {};
    }

    method PushSinglePage(page: nat, ps: nat, delivery: Delivery) returns (ok: bool)
      requires page > 0 && Valid()
      modifies this`totalTransferred, this`completed, this`recorded, this`sent
      ensures Valid() && State() == AfterPage(old(State()), total, page, ps, delivery)
      ensures ok <==> !delivery.Refused?
    {
      if delivery.Refused? {
        return false;
      }
      ghost var documents := PageDocuments(page, ps, total);
      var documentCount := PageCount(page, ps, total);
      sent := sent + documents;
      if documentCount > 0 && delivery.Tracked? {
        totalTransferred, completed, recorded := totalTransferred + documentCount, false, true;
      }
      assert documentCount == 0 ==> documents == {};
      ok := true;
    }

    /** Pushes every page and reports a full page of progress for each. */
    method PushCollectionData(batchSize: int, outcome: nat -> Delivery, marked: bool) returns (ok: bool)
      requires Valid()
      modifies this
      ensures Valid() && (State(), ok) == FullPush(old(State()), total, PageSize(batchSize), outcome, marked)
      ensures ok && total > 0 ==> transferredDocs == Skip(TotalPages(total, PageSize(batchSize)) + 1, PageSize(batchSize))
    {
      hide Skip, AfterPage, TotalPages;
      if total == 0 {
        transferredDocs := 0;
        return true;
      }
      var ps := PageSize(batchSize);
      var totalPages := TotalPages(total, ps);
      transferredDocs := 0;
      NextSkip(1, ps);
      for page := 1 to totalPages + 1
        invariant Valid() && PushPages(old(State()), total, 1, totalPages, ps, outcome)
               == PushPages(State(), total, page, totalPages, ps, outcome)
        invariant transferredDocs == Skip(page, ps)
      {
        ghost var before := State();
        var pushed := PushSinglePage(page, ps, outcome(page));
        if !pushed {
          AfterRefusal(before, total, page, ps);
          return false;
        }
        NextSkip(page, ps);
        transferredDocs := transferredDocs + ps;
      }
      if marked {
        completed, recorded := true, true;
      }
      ok := true;
    }

    /** Pushes the pages from `fromPage` on; `reports` lists the progress it reports. */
    method PushCollectionDataFromPage(fromPage: nat, batchSize: int, outcome: nat -> Delivery)
      returns (ok: bool, ghost reports: seq<nat>)
      requires fromPage > 0 && Valid()
      modifies this
      ensures Valid()
      ensures var ps := PageSize(batchSize);
              var n := TotalPages(total, ps);
              && (State(), ok) == (if fromPage > n then (old(State()), true)
                                   else PushPages(old(State()), total, fromPage, n, ps, outcome))
              && (fromPage <= n && ok ==> transferredDocs == total)
      ensures forall i, j :: 0 <= i < j < |reports| ==> reports[i] <= reports[j]
      ensures forall i :: 0 <= i < |reports| ==> reports[i] <= total
    {
      hide Skip, AfterPage, TotalPages;
      reports := [];
      var ps := PageSize(batchSize);
      var totalPages := TotalPages(total, ps);
      if fromPage > totalPages {
        return true, [];
      }
      PageBounds(total, ps, fromPage);
      transferredDocs := Skip(fromPage, ps);
      reports := [transferredDocs];
      for page := fromPage to totalPages + 1
        invariant Valid() && PushPages(old(State()), total, fromPage, totalPages, ps, outcome)
               == PushPages(State(), total, page, totalPages, ps, outcome)
        invariant transferredDocs == Min(Skip(page, ps), total)
        invariant |reports| > 0 && reports[|reports| - 1] == transferredDocs
        invariant forall i, j :: 0 <= i < j < |reports| ==> reports[i] <= reports[j]
        invariant forall i :: 0 <= i < |reports| ==> reports[i] <= transferredDocs
      {
        ghost var before := State();
        var pushed := PushSinglePage(page, ps, outcome(page));
        if !pushed {
          AfterRefusal(before, total, page, ps);
          return false, reports;
        }
        NextSkip(page, ps);
        LastPage(total, ps);
        var pageDocCount := if page == totalPages && total % ps != 0 then total % ps else ps;
        transferredDocs := Min(Skip(page, ps) + pageDocCount, total);
        reports := reports + [transferredDocs];
      }
      PageBounds(total, ps, totalPages);
      NextSkip(totalPages, ps);
      ok := true;
    }

    /**
     * Whether there is an unfinished record to resume, and from which page: its count over the page size.
     * An unreadable tracker counts as no record.
     */
    method CheckResumeCapability(batchSize: int, readable: bool) returns (canResume: bool, fromPage: nat)
      ensures canResume <==> readable && recorded && !completed
      ensures fromPage == if canResume then totalTransferred / PageSize(batchSize) else 0
    {
      if !readable || !recorded {
        return false, 0;
      }
      if completed {
        return false, 0;
      }
      return true, totalTransferred / PageSize(batchSize);
    }

    /**
     * Resumes where the tracked count points, or starts over; a forced sync always starts over, and so does
     * one whose resume request, checkpoint probe or second reading of the tracker fails.
     */
    method PushCollectionDataWithResume(t: Try) returns (ok: bool)
      requires Valid()
      modifies this
      ensures Valid() && (State(), ok) == Attempt(old(State()), total, t)
    {
      hide FullPush, PushPages;
      if t.forced {
        ok := PushCollectionData(t.batchSize, t.outcome, t.marked);
        return;
      }
      var canResume, fromPage := CheckResumeCapability(t.batchSize, t.readable);
      if canResume && fromPage > 0 {
        if !t.resumable {
          ok := PushCollectionData(t.batchSize, t.outcome, t.marked);
          return;
        }
        ghost var reports;
        ok, reports := PushCollectionDataFromPage(fromPage, t.batchSize, t.outcome);
        return;
      }
      if !t.probed {
        ok := PushCollectionData(t.batchSize, t.outcome, t.marked);
        return;
      }
      if completed {
        return true;
      }
      if t.cleared {
        sent := {};
      }
      ok := PushCollectionData(t.batchSize, t.outcome, t.marked);
    }
  }

  // ---------- page arithmetic ----------

  lemma AfterRefusal(s: Progress, total: nat, page: nat, ps: nat)
    requires page > 0
    ensures AfterPage(s, total, page, ps, Refused) == s
  {
  }

  lemma NextSkip(page: nat, ps: nat)
    requires page > 0
    ensures Skip(page + 1, ps) == Skip(page, ps) + ps && Skip(1, ps) == 0
  {
  }

  lemma SkipOrder(page: nat, later: nat, ps: nat)
    requires 0 < page <= later
    ensures Skip(page, ps) <= Skip(later, ps)
    ensures page < later ==> Skip(page, ps) + ps <= Skip(later, ps)
  {
    assert (later - 1) * ps == (page - 1) * ps + (later - page) * ps;
    if page < later {
      assert (later - page) * ps == (later - page - 1) * ps + ps;
    }
  }

  /** The last page ends with the last document. */
  lemma LastPage(total: nat, ps: nat)
    requires ps > 0
    ensures var n := TotalPages(total, ps);
            && total <= Skip(n, ps) + ps && (total > 0 ==> Skip(n, ps) < total)
            && (total % ps != 0 ==> Skip(n, ps) + total % ps == total)
            && (total % ps == 0 && total > 0 ==> Skip(n, ps) + ps == total)
  {
    if total > 0 {
      var q, r := (total - 1) / ps, (total - 1) % ps;
      assert total - 1 == ps * q + r && Skip(q + 1, ps) == q * ps;
      if r + 1 < ps {
        DivisionIsUnique(total, ps, q, r + 1);
      } else {
        assert ps * (q + 1) == ps * q + ps;
        DivisionIsUnique(total, ps, q + 1, 0);
      }
    }
  }

  lemma PageBounds(total: nat, ps: nat, page: nat)
    requires ps > 0 && 0 < page <= TotalPages(total, ps)
    ensures Skip(page, ps) <= total <= Skip(TotalPages(total, ps), ps) + ps
    ensures total > 0 ==> Skip(page, ps) < total
  {
    LastPage(total, ps);
    SkipOrder(page, TotalPages(total, ps), ps);
  }

  /** The page a tracked count resumes from starts at least one and less than two pages before it. */
  lemma ResumePage(transferred: nat, ps: nat)
    requires ps > 0 && transferred / ps > 0
    ensures Skip(transferred / ps, ps) + ps <= transferred < Skip(transferred / ps, ps) + 2 * ps
  {
    var q := transferred / ps;
    assert transferred == ps * q + transferred % ps;
    assert ps * q == (q - 1) * ps + ps;
  }

  lemma {:induction false} RangeSize(low: nat, high: nat)
    ensures |Range(low, high)| == if low < high then high - low else 0
  {
    if low < high {
      RangeSize(low, high - 1);
    }
  }

  /** A full push reports whole pages, so it ends on the true count only for whole pages. */
  lemma FullPushReport(total: nat, ps: nat)
    requires ps > 0 && total > 0
    ensures var report := Skip(TotalPages(total, ps) + 1, ps);
            report >= total && (report == total <==> total % ps == 0)
  {
    LastPage(total, ps);
    NextSkip(TotalPages(total, ps), ps);
  }

  // ---------- no gap ----------

  /** The sent documents have no hole, and success is reported only when all were sent. */
  ghost predicate NoGap(s: Progress, ok: bool, total: nat) {
    && (exists d: nat :: d <= total && s.sent == Upto(d))
    && (ok ==> s.sent == Upto(total))
  }

  /** The first `d` documents. */
  function Upto(d: nat): set<nat> {
    Range(0, d)
  }

  /**
   * What every attempt keeps while the page size stays: the sent documents are the first pages, or all
   * of them, and the tracked count is less than two pages ahead.
   */
  ghost predicate Contiguous(s: Progress, total: nat, ps: nat) {
    || s.sent == Upto(total)
    || (!s.completed && exists page: nat :: page > 0 && SentBefore(s, total, ps, page))
  }

  ghost predicate SentBefore(s: Progress, total: nat, ps: nat, page: nat)
    requires page > 0
  {
    s.sent == Upto(Skip(page, ps)) && Skip(page, ps) <= total && s.transferred < Skip(page, ps) + 2 * ps
  }

  lemma {:induction false} PushKeepsContiguity(
      s: Progress, total: nat, page: nat, front: nat, ps: nat, outcome: nat -> Delivery)
    requires ps > 0 && 0 < page <= front && !s.completed
    requires SentBefore(s, total, ps, front) && s.transferred < Skip(page, ps) + 2 * ps
    ensures var (after, ok) := PushPages(s, total, page, TotalPages(total, ps), ps, outcome);
            Contiguous(after, total, ps) && (ok ==> after.sent == Upto(total))
    decreases TotalPages(total, ps) + 1 - page
  {
    hide Skip, TotalPages;
    var n := TotalPages(total, ps);
    LastPage(total, ps);
    if page > n {
      SkipOrder(n + 1, front, ps);
      NextSkip(n, ps);
    } else if !outcome(page).Refused? {
      var after := AfterPage(s, total, page, ps, outcome(page));
      PageBounds(total, ps, page);
      NextSkip(page, ps);
      SkipOrder(page, front, ps);
      if page < front {
        SkipOrder(page + 1, front, ps);
        assert after.sent == s.sent;
        PushKeepsContiguity(after, total, page + 1, front, ps, outcome);
      } else if Skip(page + 1, ps) <= total {
        assert after.sent == Upto(Skip(page + 1, ps));
        PushKeepsContiguity(after, total, page + 1, page + 1, ps, outcome);
      } else {
        assert after.sent == Upto(total);
        AllSentStays(after, total, page + 1, n, ps, outcome);
        if page < n {
          SkipOrder(page + 1, n, ps);
        }
      }
    }
  }

  lemma {:induction false} AllSentStays(s: Progress, total: nat, page: nat, last: nat, ps: nat, outcome: nat -> Delivery)
    requires page > 0 && s.sent == Upto(total)
    ensures PushPages(s, total, page, last, ps, outcome).0.sent == Upto(total)
    decreases last + 1 - page
  {
    if page <= last && !outcome(page).Refused? {
      var after := AfterPage(s, total, page, ps, outcome(page));
      assert after.sent == Upto(total);
      AllSentStays(after, total, page + 1, last, ps, outcome);
    }
  }

  /** The page to resume from starts within the sent documents, and is past the end only if all are sent. */
  lemma ResumesWithinSent(s: Progress, total: nat, ps: nat, front: nat)
    requires ps > 0 && front > 0 && SentBefore(s, total, ps, front) && s.transferred / ps > 0
    ensures s.transferred / ps <= front && s.transferred < Skip(s.transferred / ps, ps) + 2 * ps
    ensures s.transferred / ps > TotalPages(total, ps) ==> s.sent == Upto(total)
  {
    hide Skip, TotalPages;
    var n, page := TotalPages(total, ps), s.transferred / ps;
    ResumePage(s.transferred, ps);
    if page > front {
      SkipOrder(front + 1, page, ps);
      NextSkip(front, ps);
    } else if page > n {
      LastPage(total, ps);
      NextSkip(n, ps);
      SkipOrder(n + 1, front, ps);
    }
  }

  /**
   * One attempt that follows its record keeps the sent documents contiguous, and one that ends well has sent
   * them all.
   */
  lemma AttemptKeepsContiguity(s: Progress, total: nat, ps: nat, t: Try)
    requires ps == PageSize(t.batchSize) && Contiguous(s, total, ps) && Follows(t)
    ensures var (after, ok) := Attempt(s, total, t);
            Contiguous(after, total, ps) && (ok ==> after.sent == Upto(total))
  {
    hide Skip, TotalPages, PushPages, AfterPage, PageSize;
    var n, page := TotalPages(total, ps), s.transferred / ps;
    if s.completed {
      AllSentStays(s, total, 1, n, ps, t.outcome);
    } else if page > 0 {
      if s.sent == Upto(total) {
        AllSentStays(s, total, page, n, ps, t.outcome);
      } else {
        var front: nat :| front > 0 && SentBefore(s, total, ps, front);
        ResumesWithinSent(s, total, ps, front);
        if page <= n {
          PushKeepsContiguity(s, total, page, front, ps, t.outcome);
        }
      }
    } else {
      FreshStart(s, total, ps, t.outcome, t.marked, t.probed && t.cleared);
    }
  }

  lemma FreshStart(s: Progress, total: nat, ps: nat, outcome: nat -> Delivery, marked: bool, cleared: bool)
    requires ps > 0 && Contiguous(s, total, ps) && !s.completed && s.transferred / ps == 0
    ensures var (after, ok) := FullPush(if cleared then s.(sent := {}) else s, total, ps, outcome, marked);
            Contiguous(after, total, ps) && (ok ==> after.sent == Upto(total))
  {
    hide Skip, TotalPages, PushPages, AfterPage;
    var start := if cleared then s.(sent := {}) else s;
    var n := TotalPages(total, ps);
    NextSkip(1, ps);
    assert s.transferred < 2 * ps by {
      assert s.transferred == ps * (s.transferred / ps) + s.transferred % ps;
    }
    if start.sent == Upto(total) {
      AllSentStays(start, total, 1, n, ps, outcome);
    } else if cleared {
      assert SentBefore(start, total, ps, 1);
      PushKeepsContiguity(start, total, 1, 1, ps, outcome);
    } else {
      var front: nat :| front > 0 && SentBefore(s, total, ps, front);
      PushKeepsContiguity(s, total, 1, front, ps, outcome);
    }
  }

  // ---------- whole runs ----------

  /** The attempt reads its record and resumes from it whenever there is one. */
  predicate Follows(t: Try) {
    !t.forced && t.readable && t.resumable
  }

  /** The progress after the attempts, and whether the last one reported success. */
  function Run(total: nat, tries: seq<Try>): (Progress, bool) {
    if tries == [] then (Progress(0, false, {}), false)
    else Attempt(Run(total, tries[..|tries| - 1]).0, total, tries[|tries| - 1])
  }

  /**
   * Resume leaves no gap: with one page size and a stable order, after any number of interrupted
   * attempts that follow their record, whatever pages failed and whatever tracker updates were lost, the
   * documents sent are the first ones without a hole, and an attempt that reports success has sent every
   * document.
   */
  lemma {:induction false} ResumeLeavesNoGap(total: nat, ps: nat, tries: seq<Try>)
    requires forall t :: t in tries ==> Follows(t) && PageSize(t.batchSize) == ps
    requires ps > 0
    ensures var (s, ok) := Run(total, tries); NoGap(s, ok, total)
  {
    RunKeepsContiguity(total, ps, tries);
    var s := Run(total, tries).0;
    if s.sent != Upto(total) {
      var page: nat :| page > 0 && SentBefore(s, total, ps, page);
    }
  }

  lemma {:induction false} RunKeepsContiguity(total: nat, ps: nat, tries: seq<Try>)
    requires forall t :: t in tries ==> Follows(t) && PageSize(t.batchSize) == ps
    requires ps > 0
    ensures Contiguous(Run(total, tries).0, total, ps)
    ensures Run(total, tries).1 ==> Run(total, tries).0.sent == Upto(total)
  {
    hide Attempt, Contiguous;
    if tries == [] {
      NothingSent(total, ps);
    } else {
      var before := tries[..|tries| - 1];
      RunKeepsContiguity(total, ps, before);
      AttemptKeepsContiguity(Run(total, before).0, total, ps, tries[|tries| - 1]);
    }
  }

  lemma NothingSent(total: nat, ps: nat)
    requires ps > 0
    ensures Contiguous(Progress(0, false, {}), total, ps)
  {
    NextSkip(1, ps);
    assert SentBefore(Progress(0, false, {}), total, ps, 1);
  }

  // ---------- what a push delivers ----------

  /** The documents of the pages from `page` to `last`, up to the first refused one. */
  function Delivered(total: nat, page: nat, last: nat, ps: nat, outcome: nat -> Delivery): set<nat>
    requires page > 0
    decreases last + 1 - page
  {
    if page > last || outcome(page).Refused? then {}
    else PageDocuments(page, ps, total) + Delivered(total, page + 1, last, ps, outcome)
  }

  /** A push sends what it delivers, which are all documents from its first page on if it ends well. */
  lemma {:induction false} PushDelivers(s: Progress, total: nat, page: nat, ps: nat, outcome: nat -> Delivery)
    requires ps > 0 && 0 < page <= TotalPages(total, ps) + 1
    ensures var n := TotalPages(total, ps);
            var (after, ok) := PushPages(s, total, page, n, ps, outcome);
            && after.sent == s.sent + Delivered(total, page, n, ps, outcome)
            && (ok ==> Delivered(total, page, n, ps, outcome) == Range(Skip(page, ps), total))
    decreases TotalPages(total, ps) + 1 - page
  {
    hide Skip, TotalPages;
    var n := TotalPages(total, ps);
    LastPage(total, ps);
    if page > n {
      NextSkip(n, ps);
    } else if !outcome(page).Refused? {
      NextSkip(page, ps);
      PushDelivers(AfterPage(s, total, page, ps, outcome(page)), total, page + 1, ps, outcome);
      PageBounds(total, ps, page);
    }
  }

  /** The documents of those of these pages whose delivery reaches the tracker. */
  function TrackedDocuments(total: nat, page: nat, last: nat, ps: nat, outcome: nat -> Delivery): set<nat>
    requires page > 0
    decreases last + 1 - page
  {
    if page > last || outcome(page).Refused? then {}
    else
      (if outcome(page).Tracked? then PageDocuments(page, ps, total) else {})
      + TrackedDocuments(total, page + 1, last, ps, outcome)
  }

  lemma PageSizes(total: nat, page: nat, ps: nat)
    requires page > 0
    ensures |PageDocuments(page, ps, total)| == PageCount(page, ps, total)
  {
    RangeSize(Skip(page, ps), Min(Skip(page, ps) + ps, total));
  }

  lemma DisjointSizes(a: set<nat>, b: set<nat>, border: nat)
    requires (forall d :: d in a ==> d < border) && forall d :: d in b ==> d >= border
    ensures |a + b| == |a| + |b|
  {
    assert a * b == {};
  }

  /** The tracked count grows by exactly the documents whose delivery was tracked, the last page's rest included. */
  lemma {:induction false} PushTracks(s: Progress, total: nat, page: nat, last: nat, ps: nat, outcome: nat -> Delivery)
    requires page > 0
    ensures var tracked := TrackedDocuments(total, page, last, ps, outcome);
            && PushPages(s, total, page, last, ps, outcome).0.transferred == s.transferred + |tracked|
            && forall d :: d in tracked ==> Skip(page, ps) <= d < total
    decreases last + 1 - page
  {
    hide Skip;
    if page <= last && !outcome(page).Refused? {
      NextSkip(page, ps);
      PageSizes(total, page, ps);
      PushTracks(AfterPage(s, total, page, ps, outcome(page)), total, page + 1, last, ps, outcome);
      DisjointSizes(if outcome(page).Tracked? then PageDocuments(page, ps, total) else {},
                    TrackedDocuments(total, page + 1, last, ps, outcome), Skip(page + 1, ps));
    }
  }

  /** The documents a resumption delivers although they had been sent. */
  function Resent(s: Progress, total: nat, t: Try): set<nat>
    requires Resumes(s, t)
  {
    s.sent * Delivered(total, FirstPage(s, t), TotalPages(total, PageSize(t.batchSize)), PageSize(t.batchSize), t.outcome)
  }

  lemma ResentCount(s: Progress, total: nat, t: Try, d: nat)
    requires Resumes(s, t) && s.sent == Upto(d) && d <= total && FirstPage(s, t) <= TotalPages(total, PageSize(t.batchSize))
    requires Attempt(s, total, t).1 && Skip(FirstPage(s, t), PageSize(t.batchSize)) <= d
    ensures |Resent(s, total, t)| == d - Skip(FirstPage(s, t), PageSize(t.batchSize))
  {
    hide Skip, PageSize, TotalPages;
    var ps := PageSize(t.batchSize);
    PushDelivers(s, total, FirstPage(s, t), ps, t.outcome);
    assert Resent(s, total, t) == Range(Skip(FirstPage(s, t), ps), d);
    RangeSize(Skip(FirstPage(s, t), ps), d);
  }

  /**
   * After a first interruption with every update tracked, a resumption that ends well sends again at
   * least one page and less than two of the documents already sent.
   */
  lemma FirstResumptionOverlap(s: Progress, total: nat, t: Try)
    requires Resumes(s, t) && s.sent == Upto(s.transferred) && s.transferred < total && Attempt(s, total, t).1
    ensures PageSize(t.batchSize) <= |Resent(s, total, t)| < 2 * PageSize(t.batchSize)
  {
    hide PageSize, TotalPages, PushPages;
    var ps := PageSize(t.batchSize);
    ResumePage(s.transferred, ps);
    StartsOnAPage(s, total, t);
    ResentCount(s, total, t, s.transferred);
  }

  lemma StartsOnAPage(s: Progress, total: nat, t: Try)
    requires Resumes(s, t) && Skip(FirstPage(s, t), PageSize(t.batchSize)) < total
    ensures FirstPage(s, t) <= TotalPages(total, PageSize(t.batchSize))
  {
    hide Skip, PageSize, TotalPages;
    var ps := PageSize(t.batchSize);
    var n := TotalPages(total, ps);
    LastPage(total, ps);
    if FirstPage(s, t) > n {
      NextSkip(n, ps);
      SkipOrder(n + 1, FirstPage(s, t), ps);
    }
  }

  /**
   * After later ones the count may be ahead of the documents, by the page that was sent twice: then a
   * resumption that ends well sends no document again, and otherwise exactly one page.
   */
  lemma LaterResumptionOverlap(s: Progress, total: nat, t: Try, front: nat)
    requires Resumes(s, t) && front > 0 && Skip(front, PageSize(t.batchSize)) < total && Attempt(s, total, t).1
    requires s.sent == Upto(Skip(front, PageSize(t.batchSize)))
    requires Skip(front, PageSize(t.batchSize)) <= s.transferred < Skip(front, PageSize(t.batchSize)) + 2 * PageSize(t.batchSize)
    ensures var ps := PageSize(t.batchSize);
            |Resent(s, total, t)| == if s.transferred < Skip(front, ps) + ps then ps else 0
  {
    hide PageSize, TotalPages, PushPages;
    var ps := PageSize(t.batchSize);
    var r, d := s.transferred - Skip(front, ps), Skip(front, ps);
    assert d == ps * (front - 1);
    if r < ps {
      DivisionIsUnique(s.transferred, ps, front - 1, r);
      NextSkip(front - 1, ps);
    } else {
      assert ps * front == ps * (front - 1) + ps;
      DivisionIsUnique(s.transferred, ps, front, r - ps);
    }
    StartsOnAPage(s, total, t);
    ResentCount(s, total, t, d);
  }

  // ---------- runs with restarts and changing page sizes ----------

  /** Some first documents are sent, all of them if the completion mark is set. */
  ghost predicate Sound(s: Progress, total: nat) {
    && (exists d: nat :: d <= total && s.sent == Upto(d))
    && (s.completed ==> s.sent == Upto(total))
  }

  /** The attempt resumes, and gets its first page delivered or finds that its page is past the last. */
  predicate Advances(s: Progress, total: nat, t: Try) {
    Resumes(s, t) && (FirstPage(s, t) <= TotalPages(total, PageSize(t.batchSize)) ==> !t.outcome(FirstPage(s, t)).Refused?)
  }

  /** All is sent, or the first page resumed starts no later than the number of documents sent. */
  predicate StartsWithin(s: Progress, total: nat, t: Try)
    requires Resumes(s, t)
  {
    |s.sent| == total || Skip(FirstPage(s, t), PageSize(t.batchSize)) <= |s.sent|
  }

  /** A resumption that advances starts within the documents sent. */
  predicate StepsSafely(s: Progress, total: nat, t: Try) {
    Advances(s, total, t) ==> StartsWithin(s, total, t)
  }

  lemma {:induction false} PushKeepsPrefix(s: Progress, total: nat, page: nat, ps: nat, outcome: nat -> Delivery, d: nat)
    requires ps > 0 && 0 < page <= TotalPages(total, ps) + 1
    requires s.sent == Upto(d) && d <= total && (d == total || Skip(page, ps) <= d) && (s.completed ==> d == total)
    ensures var (after, ok) := PushPages(s, total, page, TotalPages(total, ps), ps, outcome);
            Sound(after, total) && (ok ==> after.sent == Upto(total))
    decreases TotalPages(total, ps) + 1 - page
  {
    hide Skip, TotalPages;
    var n := TotalPages(total, ps);
    LastPage(total, ps);
    if page > n {
      NextSkip(n, ps);
    } else if !outcome(page).Refused? {
      var after := AfterPage(s, total, page, ps, outcome(page));
      NextSkip(page, ps);
      PageBounds(total, ps, page);
      var d' := if Skip(page, ps) + ps <= d then d else Min(Skip(page, ps) + ps, total);
      assert after.sent == Upto(d');
      PushKeepsPrefix(after, total, page + 1, ps, outcome, d');
    }
  }

  /** A push that starts past the documents sent leaves the one after them out. */
  lemma {:induction false} PushSkips(s: Progress, total: nat, page: nat, last: nat, ps: nat, outcome: nat -> Delivery, d: nat)
    requires page > 0 && d !in s.sent && d < Skip(page, ps)
    ensures d !in PushPages(s, total, page, last, ps, outcome).0.sent
    decreases last + 1 - page
  {
    hide Skip;
    if page <= last && !outcome(page).Refused? {
      NextSkip(page, ps);
      PushSkips(AfterPage(s, total, page, ps, outcome(page)), total, page + 1, last, ps, outcome, d);
    }
  }

  lemma {:induction false} PushKeepsSent(s: Progress, total: nat, page: nat, last: nat, ps: nat, outcome: nat -> Delivery)
    requires page > 0
    ensures s.sent <= PushPages(s, total, page, last, ps, outcome).0.sent
    decreases last + 1 - page
  {
    hide Skip;
    if page <= last && !outcome(page).Refused? {
      PushKeepsSent(AfterPage(s, total, page, ps, outcome(page)), total, page + 1, last, ps, outcome);
    }
  }

  lemma FullPushKeepsPrefix(s: Progress, total: nat, ps: nat, outcome: nat -> Delivery, marked: bool)
    requires ps > 0 && Sound(s, total)
    ensures var (after, ok) := FullPush(s, total, ps, outcome, marked);
            Sound(after, total) && (ok ==> after.sent == Upto(total))
  {
    hide TotalPages, PushPages;
    var d: nat :| d <= total && s.sent == Upto(d);
    RangeSize(0, d);
    RangeSize(0, total);
    PushKeepsPrefix(s, total, 1, ps, outcome, d);
  }

  /** An attempt on sound progress leaves a gap exactly if it resumes past the documents sent. */
  lemma AttemptLeavesNoGapIff(s: Progress, total: nat, t: Try)
    requires Sound(s, total)
    ensures var (after, ok) := Attempt(s, total, t);
            && (NoGap(after, ok, total) <==> StepsSafely(s, total, t))
            && (NoGap(after, ok, total) ==> Sound(after, total))
  {
    hide Skip, TotalPages, PushPages, FullPush, PageSize;
    var ps := PageSize(t.batchSize);
    var d: nat :| d <= total && s.sent == Upto(d);
    RangeSize(0, d);
    if Resumes(s, t) {
      ResumptionLeavesNoGapIff(s, total, t, d);
    } else {
      FullPushKeepsPrefix(s, total, ps, t.outcome, t.marked);
      assert Upto(0) == {};
      if !s.completed {
        FullPushKeepsPrefix(s.(sent := {}), total, ps, t.outcome, t.marked);
      }
    }
  }

  lemma HoleIsGap(s: Progress, ok: bool, total: nat, d: nat, later: nat)
    requires d < later && d !in s.sent && later in s.sent
    ensures !NoGap(s, ok, total)
  {
  }

  /** A push that starts past the documents sent and gets its first page delivered leaves a hole. */
  lemma PushLeavesGap(s: Progress, total: nat, page: nat, ps: nat, outcome: nat -> Delivery, d: nat)
    requires ps > 0 && 0 < page <= TotalPages(total, ps) && !outcome(page).Refused? && total > 0
    requires d !in s.sent && d < Skip(page, ps)
    ensures var (after, ok) := PushPages(s, total, page, TotalPages(total, ps), ps, outcome); !NoGap(after, ok, total)
  {
    hide Skip, TotalPages, NoGap;
    var n := TotalPages(total, ps);
    PageBounds(total, ps, page);
    PushSkips(s, total, page, n, ps, outcome, d);
    PushKeepsSent(AfterPage(s, total, page, ps, outcome(page)), total, page + 1, n, ps, outcome);
    var (after, ok) := PushPages(s, total, page, n, ps, outcome);
    assert Skip(page, ps) in PageDocuments(page, ps, total);
    HoleIsGap(after, ok, total, d, Skip(page, ps));
  }

  lemma PastTheEnd(s: Progress, total: nat, t: Try)
    requires Resumes(s, t) && FirstPage(s, t) > TotalPages(total, PageSize(t.batchSize))
    ensures Skip(FirstPage(s, t), PageSize(t.batchSize)) >= total
  {
    hide Skip, TotalPages, PageSize;
    var ps := PageSize(t.batchSize);
    var n := TotalPages(total, ps);
    LastPage(total, ps);
    NextSkip(n, ps);
    SkipOrder(n + 1, FirstPage(s, t), ps);
  }

  lemma ResumptionLeavesNoGapIff(s: Progress, total: nat, t: Try, d: nat)
    requires Resumes(s, t) && s.sent == Upto(d) && d <= total && |s.sent| == d
    ensures var (after, ok) := Attempt(s, total, t);
            && (NoGap(after, ok, total) <==> StepsSafely(s, total, t))
            && (NoGap(after, ok, total) ==> Sound(after, total))
  {
    hide Skip, TotalPages, PageSize, AfterPage;
    var ps, page := PageSize(t.batchSize), FirstPage(s, t);
    if page > TotalPages(total, ps) {
      PastTheEnd(s, total, t);
      RangeSize(0, total);
      assert Sound(s, total);
    } else if StartsWithin(s, total, t) {
      PushKeepsPrefix(s, total, page, ps, t.outcome, d);
    } else if t.outcome(page).Refused? {
      assert Attempt(s, total, t) == (s, false);
    } else {
      PushLeavesGap(s, total, page, ps, t.outcome, d);
    }
  }

  lemma NextAttempt(total: nat, tries: seq<Try>, i: nat)
    requires i < |tries|
    ensures Run(total, tries[..i + 1]) == Attempt(Run(total, tries[..i]).0, total, tries[i])
  {
    hide Attempt;
    assert tries[..i + 1][..i] == tries[..i];
  }

  lemma {:induction false} SoundSoFar(total: nat, tries: seq<Try>, i: nat)
    requires i <= |tries|
    requires (forall j :: 0 <= j <= i ==> NoGap(Run(total, tries[..j]).0, Run(total, tries[..j]).1, total))
          || (forall j :: 0 <= j < i ==> StepsSafely(Run(total, tries[..j]).0, total, tries[j]))
    ensures Sound(Run(total, tries[..i]).0, total)
    ensures NoGap(Run(total, tries[..i]).0, Run(total, tries[..i]).1, total)
    decreases i
  {
    hide Attempt, StepsSafely;
    if i == 0 {
      assert Upto(0) == {};
    } else {
      SoundSoFar(total, tries, i - 1);
      NextAttempt(total, tries, i - 1);
      AttemptLeavesNoGapIff(Run(total, tries[..i - 1]).0, total, tries[i - 1]);
    }
  }

  /**
   * Exactly when a run leaves no gap, with restarts for whatever reason, any page sizes, failures and lost
   * updates: after every attempt the sent documents have no hole and success means that all were sent, if
   * and only if every resumption that advances starts within the documents sent by then.
   */
  lemma RunLeavesNoGapIff(total: nat, tries: seq<Try>)
    ensures (forall i :: 0 <= i <= |tries| ==> NoGap(Run(total, tries[..i]).0, Run(total, tries[..i]).1, total)) <==>
            (forall i :: 0 <= i < |tries| ==> StepsSafely(Run(total, tries[..i]).0, total, tries[i]))
  {
    hide NoGap, StepsSafely, Sound, Attempt;
    if forall i :: 0 <= i <= |tries| ==> NoGap(Run(total, tries[..i]).0, Run(total, tries[..i]).1, total) {
      forall i | 0 <= i < |tries| ensures StepsSafely(Run(total, tries[..i]).0, total, tries[i]) {
        SoundSoFar(total, tries, i);
        NextAttempt(total, tries, i);
        AttemptLeavesNoGapIff(Run(total, tries[..i]).0, total, tries[i]);
        assert NoGap(Run(total, tries[..i + 1]).0, Run(total, tries[..i + 1]).1, total);
      }
    }
    if forall i :: 0 <= i < |tries| ==> StepsSafely(Run(total, tries[..i]).0, total, tries[i]) {
      forall i | 0 <= i <= |tries| ensures NoGap(Run(total, tries[..i]).0, Run(total, tries[..i]).1, total) {
        SoundSoFar(total, tries, i);
      }
    }
  }

  // ---------- how far the count may be ahead ----------

  lemma UptoSize(d: nat)
    ensures |Upto(d)| == d
  {
    RangeSize(0, d);
  }

  lemma UptoIsSound(s: Progress, total: nat, d: nat)
    requires s.sent == Upto(d) && d <= total && !s.completed
    ensures Sound(s, total) && NoGap(s, false, total)
  {
  }

  /** A resumption starts within the documents sent exactly if the count is ahead of them by a page and a rest at most. */
  lemma WithinIffOvercount(s: Progress, t: Try)
    requires Resumes(s, t)
    ensures var ps := PageSize(t.batchSize);
            Skip(FirstPage(s, t), ps) <= |s.sent| <==> s.transferred <= |s.sent| + ps + s.transferred % ps
  {
    hide PageSize;
    var ps := PageSize(t.batchSize);
    assert s.transferred == ps * FirstPage(s, t) + s.transferred % ps;
    assert ps * FirstPage(s, t) == Skip(FirstPage(s, t), ps) + ps;
  }

  /** Pushing delivers and tracks the pages from `page` to `j` and stops at page `j + 1`. */
  predicate StopsAfter(outcome: nat -> Delivery, page: nat, j: nat) {
    outcome(j + 1).Refused? && forall p :: page <= p <= j ==> outcome(p).Tracked?
  }

  lemma {:induction false} PushStopsAfter(s: Progress, total: nat, page: nat, j: nat, ps: nat, outcome: nat -> Delivery)
    requires ps > 0 && 0 < page <= j + 1 <= TotalPages(total, ps) && !s.completed && StopsAfter(outcome, page, j)
    ensures Skip(page, ps) <= Skip(j + 1, ps)
    ensures PushPages(s, total, page, TotalPages(total, ps), ps, outcome) ==
            (Progress(s.transferred + Skip(j + 1, ps) - Skip(page, ps), false,
                      s.sent + Range(Skip(page, ps), Skip(j + 1, ps))), false)
    decreases j + 1 - page
  {
    hide Skip, TotalPages;
    if page <= j {
      NextSkip(page, ps);
      PageBounds(total, ps, j + 1);
      SkipOrder(page, j + 1, ps);
      SkipOrder(page + 1, j + 1, ps);
      var after := AfterPage(s, total, page, ps, Tracked);
      PushStopsAfter(after, total, page + 1, j, ps, outcome);
      assert after == Progress(s.transferred + ps, false, s.sent + Range(Skip(page, ps), Skip(page + 1, ps)));
      assert after.sent + Range(Skip(page + 1, ps), Skip(j + 1, ps)) == s.sent + Range(Skip(page, ps), Skip(j + 1, ps));
    } else {
      assert s.sent + Range(Skip(page, ps), Skip(j + 1, ps)) == s.sent;
    }
  }

  /** The attempt pushes from the first page without clearing the target. */
  predicate Restarts(s: Progress, t: Try) {
    !Resumes(s, t) && (t.forced || FindsRecord(s, t) || !t.probed)
  }

  /**
   * A restart does not reset the count: one that stops after `j` tracked pages puts the count ahead by the
   * documents sent twice.
   */
  lemma RestartOvercounts(s: Progress, total: nat, t: Try, j: nat, d: nat)
    requires Restarts(s, t) && !s.completed && s.sent == Upto(d) && total > 0
    requires j < TotalPages(total, PageSize(t.batchSize)) && StopsAfter(t.outcome, 1, j)
    ensures var pushed := Skip(j + 1, PageSize(t.batchSize));
            Attempt(s, total, t) == (Progress(s.transferred + pushed, false, Upto(if d < pushed then pushed else d)), false)
  {
    hide Skip, TotalPages, PushPages, PageSize;
    var ps := PageSize(t.batchSize);
    PushStopsAfter(s, total, 1, j, ps, t.outcome);
    NextSkip(1, ps);
    assert Upto(d) + Range(0, Skip(j + 1, ps)) == Upto(if d < Skip(j + 1, ps) then Skip(j + 1, ps) else d);
  }

  /** A resumption that stops after page `j`, past the documents sent before, leaves the count ahead by a page and a rest. */
  lemma ResumptionOvercounts(s: Progress, total: nat, t: Try, j: nat, d: nat)
    requires Resumes(s, t) && s.sent == Upto(d) && Skip(FirstPage(s, t), PageSize(t.batchSize)) <= d
    requires FirstPage(s, t) <= j < TotalPages(total, PageSize(t.batchSize)) && StopsAfter(t.outcome, FirstPage(s, t), j)
    requires d <= Skip(j + 1, PageSize(t.batchSize))
    ensures var ps := PageSize(t.batchSize);
            var front := Skip(j + 1, ps);
            Attempt(s, total, t) == (Progress(front + ps + s.transferred % ps, false, Upto(front)), false)
  {
    hide TotalPages, PushPages, PageSize, Skip;
    var ps := PageSize(t.batchSize);
    PushStopsAfter(s, total, FirstPage(s, t), j, ps, t.outcome);
    assert s.transferred == ps * FirstPage(s, t) + s.transferred % ps;
    PagesAsProduct(FirstPage(s, t), ps);
    NextSkip(FirstPage(s, t), ps);
    assert Upto(d) + Range(Skip(FirstPage(s, t), ps), Skip(j + 1, ps)) == Upto(Skip(j + 1, ps));
  }

  lemma PagesAsProduct(pages: nat, ps: nat)
    ensures Skip(pages + 1, ps) == ps * pages
  {
  }

  lemma PagesTracked(k: nat, j: nat, ps: nat)
    requires ps > 0
    ensures Skip(k + 1, ps) + Skip(j + 1, ps) == Skip(k + j + 1, ps) && Skip(k + j + 1, ps) / ps == k + j
  {
    assert k * ps + j * ps == (k + j) * ps;
    assert (k + j) * ps == ps * (k + j) + 0;
    DivisionIsUnique((k + j) * ps, ps, k + j, 0);
  }

  /**
   * After `k` pages were sent and a restart, for whatever reason, sent `j` pages again before it stopped,
   * the attempt that then reports success has sent every document if and only if one of the two had not
   * got past its first page.
   */
  lemma RestartLeavesNoGapIff(s: Progress, total: nat, k: nat, j: nat, restart: Try, t: Try)
    requires PageSize(restart.batchSize) == PageSize(t.batchSize)
    requires k < TotalPages(total, PageSize(t.batchSize)) && j < TotalPages(total, PageSize(t.batchSize)) && total > 0
    requires s == Progress(Skip(k + 1, PageSize(t.batchSize)), false, Upto(Skip(k + 1, PageSize(t.batchSize))))
    requires Restarts(s, restart) && StopsAfter(restart.outcome, 1, j) && Follows(t)
    requires Attempt(Attempt(s, total, restart).0, total, t).1
    ensures Attempt(Attempt(s, total, restart).0, total, t).0.sent == Upto(total) <==> k <= 1 || j <= 1
  {
    hide Skip, TotalPages, PushPages, FullPush, PageSize, Attempt, Restarts, Upto, StopsAfter, Follows;
    var ps := PageSize(t.batchSize);
    var most, again := if k >= j then k else j, Attempt(s, total, restart).0;
    RestartOvercounts(s, total, restart, j, Skip(k + 1, ps));
    PagesTracked(k, j, ps);
    SkipOrder(k + 1, most + 1, ps);
    SkipOrder(j + 1, most + 1, ps);
    PageBounds(total, ps, most + 1);
    assert again == Progress(Skip(k + j + 1, ps), false, Upto(Skip(most + 1, ps)));
    UptoSize(Skip(most + 1, ps));
    AfterRestart(again, total, t, k + j, most);
  }

  lemma AfterRestart(again: Progress, total: nat, t: Try, page: nat, most: nat)
    requires most <= page && 0 < most + 1 <= TotalPages(total, PageSize(t.batchSize)) && total > 0
    requires Skip(page + 1, PageSize(t.batchSize)) / PageSize(t.batchSize) == page
    requires again == Progress(Skip(page + 1, PageSize(t.batchSize)), false, Upto(Skip(most + 1, PageSize(t.batchSize))))
    requires |again.sent| == Skip(most + 1, PageSize(t.batchSize))
    requires Follows(t) && Attempt(again, total, t).1
    ensures Attempt(again, total, t).0.sent == Upto(total) <==> page <= most + 1
  {
    hide Skip, TotalPages, PushPages, FullPush, PageSize, Attempt;
    var ps := PageSize(t.batchSize);
    PageBounds(total, ps, most + 1);
    AttemptLeavesNoGapIff(again, total, t);
    if page > 0 {
      SuccessAdvances(again, total, t);
      if page <= most + 1 {
        SkipOrder(page, most + 1, ps);
      } else {
        SkipOrder(most + 1, page, ps);
      }
    }
    assert NoGap(Attempt(again, total, t).0, true, total) <==> Attempt(again, total, t).0.sent == Upto(total);
  }

  lemma SuccessAdvances(s: Progress, total: nat, t: Try)
    requires Resumes(s, t) && Attempt(s, total, t).1
    ensures Advances(s, total, t)
  {
    hide TotalPages, PageSize;
  }

  /**
   * A resumption uses up all the room there is: when it got past the documents sent before, any restart that
   * then gets a page tracked makes the next resumption that advances leave a gap.
   */
  lemma ResumeRestartResumeLeavesGap(
      s: Progress, total: nat, first: Try, restart: Try, t: Try, i: nat, j: nat, d: nat)
    requires PageSize(first.batchSize) == PageSize(restart.batchSize) == PageSize(t.batchSize)
    requires Resumes(s, first) && s.sent == Upto(d) && Skip(FirstPage(s, first), PageSize(t.batchSize)) <= d
    requires FirstPage(s, first) <= i < TotalPages(total, PageSize(t.batchSize)) && StopsAfter(first.outcome, FirstPage(s, first), i)
    requires d <= Skip(i + 1, PageSize(t.batchSize)) && total > 0
    requires 0 < j < TotalPages(total, PageSize(t.batchSize)) && StopsAfter(restart.outcome, 1, j)
    requires var resumed := Attempt(s, total, first).0;
             Restarts(resumed, restart) && Advances(Attempt(resumed, total, restart).0, total, t)
    ensures var restarted := Attempt(Attempt(s, total, first).0, total, restart).0;
            var (after, ok) := Attempt(restarted, total, t);
            NoGap(restarted, false, total) && !NoGap(after, ok, total)
  {
    hide Skip, TotalPages, PushPages, FullPush, PageSize, Attempt, Restarts, Upto, StopsAfter, NoGap, Sound;
    var ps := PageSize(t.batchSize);
    var most, rest := if i >= j then i else j, s.transferred % ps;
    ResumptionOvercounts(s, total, first, i, d);
    var resumed := Attempt(s, total, first).0;
    RestartOvercounts(resumed, total, restart, j, Skip(i + 1, ps));
    SkipOrder(i + 1, most + 1, ps);
    SkipOrder(j + 1, most + 1, ps);
    PageBounds(total, ps, most + 1);
    var restarted := Attempt(resumed, total, restart).0;
    assert restarted.sent == Upto(Skip(most + 1, ps));
    UptoSize(Skip(most + 1, ps));
    PagesTracked(i, j, ps);
    assert restarted.transferred == Skip(i + j + 1, ps) + ps + rest;
    NextSkip(i + j + 1, ps);
    PagesAsProduct(i + j + 1, ps);
    DivisionIsUnique(restarted.transferred, ps, i + j + 1, rest);
    UptoIsSound(restarted, total, Skip(most + 1, ps));
    AttemptLeavesNoGapIff(restarted, total, t);
    WithinIffOvercount(restarted, t);
    SkipOrder(most + 1, i + j + 1, ps);
  }

  /** A try over pages of one document whose pages up to `last` are tracked and whose later ones fail. */
  function SmallTry(forced: bool, last: nat): Try {
    Try(1, forced, true, true, true, false, page => if page <= last then Tracked else Refused, false)
  }

  lemma FirstThree()
    ensures Attempt(Progress(0, false, {}), 6, SmallTry(false, 2)) == (Progress(2, false, Upto(2)), false)
    ensures Attempt(Progress(2, false, Upto(2)), 6, SmallTry(false, 3)) == (Progress(4, false, Upto(3)), false)
    ensures Attempt(Progress(4, false, Upto(3)), 6, SmallTry(true, 1)) == (Progress(5, false, Upto(3)), false)
  {
    hide PushPages;
    PushStopsAfter(Progress(0, false, {}), 6, 1, 2, 1, SmallTry(false, 2).outcome);
    assert {} + Range(0, 2) == Upto(2);
    ResumptionOvercounts(Progress(2, false, Upto(2)), 6, SmallTry(false, 3), 3, 2);
    RestartOvercounts(Progress(4, false, Upto(3)), 6, SmallTry(true, 1), 1, 3);
  }

  lemma LastPagesOfSix()
    ensures AfterPage(Progress(5, false, Upto(3)), 6, 5, 1, Tracked) == Progress(6, false, {0, 1, 2, 4})
    ensures AfterPage(Progress(6, false, {0, 1, 2, 4}), 6, 6, 1, Tracked) == Progress(7, false, {0, 1, 2, 4, 5})
  {
    hide Range;
    assert Range(4, 5) == {4} && Range(5, 6) == {5} && Range(0, 3) == {0, 1, 2};
  }

  lemma LastOfFour()
    ensures Attempt(Progress(5, false, Upto(3)), 6, SmallTry(false, 6)) == (Progress(7, false, {0, 1, 2, 4, 5}), true)
  {
    hide AfterPage, Upto;
    var outcome := SmallTry(false, 6).outcome;
    var s6, s7 := Progress(6, false, {0, 1, 2, 4}), Progress(7, false, {0, 1, 2, 4, 5});
    LastPagesOfSix();
    assert PushPages(s7, 6, 7, 6, 1, outcome) == (s7, true);
    assert PushPages(s6, 6, 6, 6, 1, outcome) == (s7, true);
  }

  /** Such a gap happens: of six documents the fourth is never sent, and the last attempt reports success. */
  lemma GapInFourAttempts()
    ensures var tries := [SmallTry(false, 2), SmallTry(false, 3), SmallTry(true, 1), SmallTry(false, 6)];
            && (forall i :: 0 <= i <= 3 ==> NoGap(Run(6, tries[..i]).0, Run(6, tries[..i]).1, 6))
            && Run(6, tries) == (Progress(7, false, {0, 1, 2, 4, 5}), true)
  {
    hide TotalPages, PushPages, FullPush, Attempt, NoGap, Upto, SmallTry;
    var tries := [SmallTry(false, 2), SmallTry(false, 3), SmallTry(true, 1), SmallTry(false, 6)];
    FirstThree();
    LastOfFour();
    assert tries[..0] == [] && tries[..4] == tries && Upto(0) == {} by { UptoNone(); }
    UptoIsSound(Progress(0, false, {}), 6, 0);
    UptoIsSound(Progress(2, false, Upto(2)), 6, 2);
    UptoIsSound(Progress(4, false, Upto(3)), 6, 3);
    UptoIsSound(Progress(5, false, Upto(3)), 6, 3);
    NextAttempt(6, tries, 0);
    NextAttempt(6, tries, 1);
    NextAttempt(6, tries, 2);
    NextAttempt(6, tries, 3);
    forall i | 0 <= i <= 3 ensures NoGap(Run(6, tries[..i]).0, Run(6, tries[..i]).1, 6) {
      assert i == 0 || i == 1 || i == 2 || i == 3;
    }
  }

  lemma UptoNone()
    ensures Upto(0) == {}
  {
  }

  // ---------- the completion mark ----------

  /** The attempt pushes all pages from the first one. */
  predicate PushesAll(s: Progress, t: Try) {
    !Resumes(s, t) && (t.forced || FindsRecord(s, t) || !t.probed || !s.completed)
  }

  lemma {:induction false} PushNeverMarks(s: Progress, total: nat, page: nat, last: nat, ps: nat, outcome: nat -> Delivery)
    requires page > 0
    ensures PushPages(s, total, page, last, ps, outcome).0.completed ==> s.completed
    decreases last + 1 - page
  {
    if page <= last && !outcome(page).Refused? {
      PushNeverMarks(AfterPage(s, total, page, ps, outcome(page)), total, page + 1, last, ps, outcome);
    }
  }

  /**
   * When the sync of a collection is finished: an unfinished one exactly if the attempt pushes all pages of a
   * collection that is not empty, all of them are sent and the completion mark reaches the tracker.
   */
  lemma FinishedIff(s: Progress, total: nat, t: Try)
    requires !s.completed
    ensures var (after, ok) := Attempt(s, total, t);
            after.completed <==> PushesAll(s, t) && total > 0 && ok && t.marked
  {
    hide TotalPages, PageSize;
    var ps := PageSize(t.batchSize);
    var n := TotalPages(total, ps);
    var start := if !t.forced && !FindsRecord(s, t) && t.probed && t.cleared then s.(sent := {}) else s;
    PushNeverMarks(start, total, 1, n, ps, t.outcome);
    if Resumes(s, t) {
      PushNeverMarks(s, total, FirstPage(s, t), n, ps, t.outcome);
    }
  }

  /** A finished sync sends nothing more, unless it is forced or its state cannot be read. */
  lemma FinishedSyncRests(s: Progress, total: nat, t: Try, next: Try)
    requires !s.completed && PushesAll(s, t) && total > 0 && t.marked && Attempt(s, total, t).1
    requires !next.forced && next.probed
    ensures Attempt(Attempt(s, total, t).0, total, next) == (Attempt(s, total, t).0, true)
  {
    hide FullPush, PushPages, TotalPages, PageSize;
    FinishedIff(s, total, t);
  }
}
