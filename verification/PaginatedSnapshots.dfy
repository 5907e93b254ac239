/** What a paginated query publishes, over whole runs: snapshots without gaps or duplicates. */
module PaginatedSnapshots {
  import opened Wrappers
  import opened Values
  import opened PaginatedSpec
  import opened PageReadings
  import opened PaginatedRuns

  // ---- Theorem: snapshots are exact ---------------------------------------

  /** Where cursors point, as positions in an ordered list; the missing cursor is the beginning. */
  type Positions = string -> nat

  function StartAt(p: Page, pos: Positions): nat { if p.cursor.None? then 0 else pos(p.cursor.value) }

  /** Each complete page's items are what the list holds between the page's two ends. */
  ghost predicate RangeReads(pages: seq<Page>, ends: Ends, list: seq<Value>, pos: Positions) {
    forall i :: 0 <= i < |pages| && Complete(pages[i]) ==>
      var a, b := StartAt(pages[i], pos), pos(End(pages[i], ends));
      a <= b <= |list| && Loaded(pages[i]).value.items == list[a..b]
  }

  /** The list position up to which the first `n` pages reach. */
  function Reach(pages: seq<Page>, n: nat, ends: Ends, pos: Positions): nat
    requires n <= |pages|
  {
    if n == 0 then 0 else pos(End(pages[n - 1], ends))
  }

  lemma PrefixGrows(list: seq<Value>, a: nat, b: nat)
    requires a <= b <= |list|
    ensures list[..a] + list[a..b] == list[..b]
  {
  }

  lemma {:induction false} ChainReadsPrefix(pages: seq<Page>, n: nat, ends: Ends, list: seq<Value>, pos: Positions)
    requires n <= |pages| && Chained(pages, ends) && RangeReads(pages, ends, list, pos)
    requires forall i :: 0 <= i < n ==> Complete(pages[i])
    ensures Reach(pages, n, ends, pos) <= |list|
    ensures Items(pages[..n]) == list[..Reach(pages, n, ends, pos)]
  {
    if n > 0 {
      ChainReadsPrefix(pages, n - 1, ends, list, pos);
      ItemsNext(pages, n - 1);
      var a, b := StartAt(pages[n - 1], pos), pos(End(pages[n - 1], ends));
      assert a == Reach(pages, n - 1, ends, pos);
      PrefixGrows(list, a, b);
    } else {
      assert Items(pages[..0]) == list[..0];
    }
  }

  /**
   * In every reachable state, the published results are exactly the list from its beginning to the end of
   * the last included page: nothing missing, repeated or reordered, whatever was split, failed or reset.
   */
  lemma SnapshotIsExact(start: State, ops: seq<Op>, ends: Ends, list: seq<Value>, pos: Positions)
    requires IsStart(start) && Conforming(start, ops, ends)
    requires RangeReads(Execute(start, ops).pages, ends, list, pos)
    ensures var s := Execute(start, ops);
            var end := Reach(s.pages, Included(s.pages), ends, pos);
            end <= |list| && ComputeSnapshot(s).results == list[..end]
  {
    SoundAlways(start, ops, ends);
    var s := Execute(start, ops);
    ChainReadsPrefix(s.pages, Included(s.pages), ends, list, pos);
  }

  lemma ExhaustedReach(s: State, ends: Ends, list: seq<Value>, pos: Positions)
    requires ComputeSnapshot(s).status.Exhausted?
    requires forall p :: p in s.pages && Complete(p) && Loaded(p).value.isDone ==> pos(End(p, ends)) == |list|
    ensures Reach(s.pages, Included(s.pages), ends, pos) == |list|
  {
    assert Included(s.pages) == |s.pages| > 0;
    assert s.pages[|s.pages| - 1] in s.pages && Complete(s.pages[|s.pages| - 1]);
  }

  /** If the page that reports isDone ends at the end of the list, an exhausted snapshot is the whole list. */
  lemma ExhaustedIsWholeList(start: State, ops: seq<Op>, ends: Ends, list: seq<Value>, pos: Positions)
    requires IsStart(start) && Conforming(start, ops, ends)
    requires RangeReads(Execute(start, ops).pages, ends, list, pos)
    requires forall p :: p in Execute(start, ops).pages && Complete(p) && Loaded(p).value.isDone ==>
               pos(End(p, ends)) == |list|
    requires ComputeSnapshot(Execute(start, ops)).status.Exhausted?
    ensures ComputeSnapshot(Execute(start, ops)).results == list
  {
    hide *;
    SnapshotIsExact(start, ops, ends, list, pos);
    ExhaustedReach(Execute(start, ops), ends, list, pos);
    assert list[..|list|] == list;
  }

  // ---- Theorem: what the status says ------------------------------------------------

  /** What a snapshot says of a page list, by what its pages' results say. */
  ghost predicate Describes(snap: Snapshot, pages: seq<Page>, udfPath: string) {
    var n := FinishedPrefix(pages);
    && snap.results == AllItems(pages[..n])
    && (snap.status.Exhausted? <==> n == |pages| && n > 0 && IsLast(pages[n - 1]))
    && (snap.status.CanLoadMore? <==> n == |pages| && !(n > 0 && IsLast(pages[n - 1])))
    && (snap.status.Failed? <==> n < |pages| && Broken(pages[n]))
    && (snap.status.LoadingFirstPage? <==> n < |pages| && Waiting(pages[n]) && snap.results == [])
    && (snap.status.LoadingMore? <==> n < |pages| && Waiting(pages[n]) && snap.results != [])
    && snap.error == if n < |pages| && Broken(pages[n]) then Some(FailureOf(pages[n], udfPath)) else None
  }

  /** What a broken page is reported as: its own error, or that it is no page. */
  function FailureOf(p: Page, udfPath: string): FunctionResult
    requires Broken(p)
  {
    if !p.result.value.Success? then p.result.value
    else PlainError("convex: paginated query \"" + udfPath + "\" returned a value that is not a PaginationResult")
  }

  lemma SnapshotDescribes(s: State)
    ensures Describes(ComputeSnapshot(s), s.pages, s.udfPath)
  {
    hide Finished, Broken, Waiting, IsLast, FailureOf;
    var n := FinishedPrefix(s.pages);
    PrefixReads(s.pages);
    ItemsRead(s.pages[..n]);
    if n > 0 { FinishedReads(s.pages[n - 1]); }
    if n < |s.pages| { StopReads(s.udfPath, s.pages[n]); }
  }

  lemma StopReads(udfPath: string, p: Page)
    requires !Finished(p)
    ensures Broken(p) <==> !Waiting(p)
    ensures StopError(udfPath, p) == if Broken(p) then Some(FailureOf(p, udfPath)) else None
  {
    FinishedReads(p);
  }

  /**
   * In every reachable state that is not stopped there is a page, and the snapshot is told by the results of the
   * pages: finished ones in front are listed; the list is exhausted if all are finished and the last says it is
   * done, can grow if it says it is not, has failed if the first page not finished is broken, with that page's
   * failure, and is loading if that page waits for its result or a split.
   */
  lemma StatusMeans(start: State, ops: seq<Op>)
    requires IsStart(start) && !Execute(start, ops).stopped
    ensures var s := Execute(start, ops);
            s.pages != [] && Describes(ComputeSnapshot(s), s.pages, s.udfPath)
  {
    BookedAlways(start, ops);
    SnapshotDescribes(Execute(start, ops));
  }

  // ---- Theorem: what completing a split does to the published results --------------

  lemma SwapIncludedCut(pages: seq<Page>, at: nat, f: Page, g: Page)
    requires at < Included(pages) && !(Complete(f) && Complete(g))
    ensures Included(Swapped(pages, at, f, g)) == if Complete(f) then at + 1 else at
  {
    var swapped := Swapped(pages, at, f, g);
    assert forall i :: 0 <= i < at ==> swapped[i] == pages[i];
    SwappedAt(pages, at, f, g, at);
    SwappedAt(pages, at, f, g, at + 1);
    IncludedIs(swapped, if Complete(f) then at + 1 else at);
  }

  lemma SwapIncludedWhole(pages: seq<Page>, at: nat, f: Page, g: Page)
    requires at < Included(pages) && Complete(f) && Complete(g)
    ensures Included(Swapped(pages, at, f, g)) == Included(pages) + 1
  {
    var n, swapped := Included(pages), Swapped(pages, at, f, g);
    forall i | 0 <= i < n + 1
      ensures Complete(swapped[i])
    {
      SwappedAt(pages, at, f, g, i);
      assert i != at && i != at + 1 ==> Complete(pages[Before(i, at)]);
    }
    if n < |pages| { SwappedAt(pages, at, f, g, n + 1); }
    IncludedIs(swapped, n + 1);
  }

  lemma SwapReach(pages: seq<Page>, at: nat, split: PendingSplit, ends: Ends, pos: Positions, n: nat)
    requires at < n <= |pages| && Covers(split, pages[at], ends)
    ensures Reach(Swapped(pages, at, split.first, split.second), n + 1, ends, pos) == Reach(pages, n, ends, pos)
  {
    SwappedAt(pages, at, split.first, split.second, n);
  }

  lemma ResultsAre(s: State)
    ensures ComputeSnapshot(s).results == Items(s.pages[..Included(s.pages)])
  {
  }

  /** Replacing a page that was not published loses nothing. */
  lemma SwapBehindResults(s: State, at: nat, split: PendingSplit)
    requires at < |s.pages| && at >= Included(s.pages)
    ensures ComputeSnapshot(s).results <= ComputeSnapshot(SwapIn(s, at, split)).results
  {
    hide ComputeSnapshot, Included, Items, Complete;
    var n, swapped := Included(s.pages), SwapIn(s, at, split).pages;
    assert swapped[..n] == s.pages[..n];
    ResultsAre(s);
    ResultsAre(SwapIn(s, at, split));
    IncludedAtLeast(swapped, n);
    ItemsGrow(swapped, n, Included(swapped));
  }

  lemma {:induction false} IncludedAtLeast(pages: seq<Page>, n: nat)
    requires n <= |pages| && forall i :: 0 <= i < n ==> Complete(pages[..n][i])
    ensures n <= Included(pages)
  {
    assert forall i :: 0 <= i < n ==> pages[i] == pages[..n][i];
  }

  lemma {:induction false} ItemsGrow(pages: seq<Page>, n: nat, m: nat)
    requires n <= m <= Included(pages)
    ensures Items(pages[..n]) <= Items(pages[..m])
  {
    if n < m {
      ItemsGrow(pages, n, m - 1);
      ItemsNext(pages, m - 1);
    }
  }

  lemma ResultsArePrefix(s: State, ends: Ends, list: seq<Value>, pos: Positions)
    requires Chained(s.pages, ends) && RangeReads(s.pages, ends, list, pos)
    ensures var end := Reach(s.pages, Included(s.pages), ends, pos);
            end <= |list| && ComputeSnapshot(s).results == list[..end]
  {
    ChainReadsPrefix(s.pages, Included(s.pages), ends, list, pos);
  }

  lemma ComparePrefixes(list: seq<Value>, a: nat, b: nat)
    requires a <= |list| && b <= |list|
    ensures |list[..a]| == a && (list[..a] == list[..b] <==> a == b) && (a <= b ==> list[..a] <= list[..b])
  {
  }

  /** Where the results end after the swap: as before, or where the first incomplete half starts. */
  lemma SwapEnd(s: State, at: nat, split: PendingSplit, ends: Ends, list: seq<Value>, pos: Positions)
    requires Chained(s.pages, ends) && at < Included(s.pages) && Covers(split, s.pages[at], ends)
    requires RangeReads(s.pages, ends, list, pos)
    ensures var n, swapped := Included(s.pages), SwapIn(s, at, split).pages;
            var end := Reach(swapped, Included(swapped), ends, pos);
            if Complete(split.first) && Complete(split.second) then end == Reach(s.pages, n, ends, pos)
            else if Complete(split.first) then end == StartAt(split.second, pos)
            else end == StartAt(split.first, pos) && end <= Reach(s.pages, n, ends, pos)
  {
    var n, swapped := Included(s.pages), SwapIn(s, at, split).pages;
    hide Complete, Chained, RangeReads, Included, Reach;
    SwapChained(s.pages, at, split, ends);
    SwappedAt(s.pages, at, split.first, split.second, at);
    SwappedAt(s.pages, at, split.first, split.second, at + 1);
    if Complete(split.first) && Complete(split.second) {
      SwapIncludedWhole(s.pages, at, split.first, split.second);
      SwapReach(s.pages, at, split, ends, pos, n);
    } else {
      SwapIncludedCut(s.pages, at, split.first, split.second);
      CutIsReach(swapped, Included(swapped), ends, pos);
      CutIsReach(s.pages, at, ends, pos);
      ReachGrows(s.pages, ends, list, pos, at, n);
    }
  }

  /**
   * Replacing a published page by its halves leaves the results as they were exactly when both halves are
   * complete, or nothing lay behind where the first incomplete one starts; the list then ends there.
   */
  lemma SwapKeepsResultsIff(s: State, at: nat, split: PendingSplit, ends: Ends, list: seq<Value>, pos: Positions)
    requires Sound(s, ends) && Swappable(s, at, split, ends) && at < Included(s.pages)
    requires RangeReads(s.pages, ends, list, pos) && RangeReads(SwapIn(s, at, split).pages, ends, list, pos)
    ensures var before, after := ComputeSnapshot(s).results, ComputeSnapshot(SwapIn(s, at, split)).results;
            var cut := if Complete(split.first) then StartAt(split.second, pos) else StartAt(split.first, pos);
            if Complete(split.first) && Complete(split.second) then after == before
            else
              && cut <= |list| && after == list[..cut]
              && (after == before <==> cut == |before|)
              && (!Complete(split.first) ==> cut <= |before|)
              && (cut <= |before| ==> after <= before)
  {
    var n, swapped := Included(s.pages), SwapIn(s, at, split);
    SwapChained(s.pages, at, split, ends);
    ResultsArePrefix(s, ends, list, pos);
    ResultsArePrefix(swapped, ends, list, pos);
    SwapEnd(s, at, split, ends, list, pos);
    ComparePrefixes(list, Reach(swapped.pages, Included(swapped.pages), ends, pos), Reach(s.pages, n, ends, pos));
  }

  /** A completed split publishes what replacing its page by the halves gives. */
  lemma CompletionSwapsIn(s: State, index: nat)
    requires Booked(s) && index < |s.splits| && !HalfFailed(s.splits[index]) && !HalfMissing(s.splits[index])
    ensures var at := PageIndex(s.pages, s.splits[index].original);
            at < |s.pages| && ComputeSnapshot(AdvanceSplit(s, index)) == ComputeSnapshot(SwapIn(s, at, s.splits[index]))
  {
    var split := s.splits[index];
    var swapped := SwapIn(WithoutSplit(s, index), PageIndex(s.pages, split.original), split);
    ConsiderSplitFrame(swapped, split.first.key);
    ConsiderSplitFrame(ConsiderSplit(swapped, split.first.key), split.second.key);
    SnapshotOfPages(SwapIn(s, PageIndex(s.pages, split.original), split), AdvanceSplit(s, index));
  }

  /** The results end where the next page starts. */
  lemma CutIsReach(pages: seq<Page>, m: nat, ends: Ends, pos: Positions)
    requires m < |pages| && Chained(pages, ends)
    ensures Reach(pages, m, ends, pos) == StartAt(pages[m], pos)
  {
  }

  lemma {:induction false} ReachGrows(pages: seq<Page>, ends: Ends, list: seq<Value>, pos: Positions, a: nat, n: nat)
    requires a <= n <= Included(pages) && Chained(pages, ends) && RangeReads(pages, ends, list, pos)
    ensures Reach(pages, a, ends, pos) <= Reach(pages, n, ends, pos)
  {
    if a < n {
      ReachGrows(pages, ends, list, pos, a, n - 1);
      assert Complete(pages[n - 1]);
    }
  }

  // ---- Theorem: what on_update is given ---------------------------------------------

  /** The last snapshot on_update was given is the present one. */
  ghost predicate UpToDate(s: State) {
    s.listening && s.published != [] ==> s.published[|s.published| - 1] == ComputeSnapshot(s)
  }

  lemma NotifyUpToDate(s: State)
    ensures UpToDate(Notify(s)) && ComputeSnapshot(Notify(s)) == ComputeSnapshot(s)
  {
    SnapshotOfPages(s, Notify(s));
  }

  lemma UpToDateStep(s: State, op: Op)
    requires UpToDate(s)
    ensures UpToDate(Step(s, op))
  {
    match op
    case PageResult(gen, key, r, freshId) =>
      if !s.stopped && gen == s.generation && !FindPlace(s, key).Nowhere? {
        NotifyUpToDate(Deliver(s, key, r, freshId));
      }
    case LoadingMore(numItems) =>
      if LoadMore(s, numItems).1 {
        NotifyUpToDate(AddPage(s, numItems, Some(Loaded(s.pages[|s.pages| - 1]).value.continueCursor)));
      }
    case SettingArgs(args, freshId) =>
      if SetArgs(s, args, freshId).1 { NotifyUpToDate(DoReset(s.(userArgs := args.value), freshId)); }
    case Resetting(freshId) => NotifyUpToDate(DoReset(s, freshId));
    case Stopping =>
  }

  /** In every run, whoever listens and was told anything was last told the present snapshot. */
  lemma {:induction false} ListenerIsUpToDate(start: State, ops: seq<Op>)
    requires IsStart(start)
    ensures UpToDate(Execute(start, ops))
  {
    if ops != [] {
      ListenerIsUpToDate(start, ops[..|ops| - 1]);
      UpToDateStep(Execute(start, ops[..|ops| - 1]), ops[|ops| - 1]);
    }
  }

  lemma DeliverKeepsPublished(s: State, key: PageKey, r: FunctionResult, freshId: int)
    requires !FindPlace(s, key).Nowhere?
    ensures Deliver(s, key, r, freshId).published == s.published
  {
    if !IsInvalidCursor(r) { DeliverFrame(s, key, r, freshId); }
  }

  /** An operation publishes nothing, or the snapshot it leaves. */
  ghost predicate PublishesItself(s: State, s1: State) {
    s1.published == s.published || s1.published == s.published + [ComputeSnapshot(s1)]
  }

  lemma NotifyPublishesItself(s: State, s1: State)
    requires s1.published == s.published
    ensures PublishesItself(s, Notify(s1))
  {
    NotifyUpToDate(s1);
  }

  lemma StepPublishesItself(s: State, op: Op)
    ensures PublishesItself(s, Step(s, op))
  {
    match op
    case PageResult(gen, key, r, freshId) =>
      if !s.stopped && gen == s.generation && !FindPlace(s, key).Nowhere? {
        DeliverKeepsPublished(s, key, r, freshId);
        NotifyPublishesItself(s, Deliver(s, key, r, freshId));
      }
    case LoadingMore(numItems) =>
      if LoadMore(s, numItems).1 {
        NotifyPublishesItself(s, AddPage(s, numItems, Some(Loaded(s.pages[|s.pages| - 1]).value.continueCursor)));
      }
    case SettingArgs(args, freshId) =>
      if SetArgs(s, args, freshId).1 { NotifyPublishesItself(s, DoReset(s.(userArgs := args.value), freshId)); }
    case Resetting(freshId) => NotifyPublishesItself(s, DoReset(s, freshId));
    case Stopping =>
  }

  /** Every snapshot ever given to on_update was the snapshot after some operation; so each of them is exact. */
  lemma {:induction false} PublishedWereCurrent(start: State, ops: seq<Op>, k: nat) returns (j: nat)
    requires IsStart(start) && k < |Execute(start, ops).published|
    ensures j <= |ops| && Execute(start, ops).published[k] == ComputeSnapshot(Execute(start, ops[..j]))
  {
    var init := ops[..|ops| - 1];
    StepPublishesItself(Execute(start, init), ops[|ops| - 1]);
    if k < |Execute(start, init).published| {
      j := PublishedWereCurrent(start, init, k);
      assert init[..j] == ops[..j];
    } else {
      j := |ops|;
      assert ops[..j] == ops;
    }
  }
}
