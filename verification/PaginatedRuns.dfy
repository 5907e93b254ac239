/**
 * Whole runs of a paginated query: any mix of page results, load_more, argument changes, resets and
 * stop, under the two assumptions about the server stated in `Conforming`.
 */
module PaginatedRuns {
  import opened Wrappers
  import opened Values
  import opened PaginatedSpec
  import opened PageReadings

  datatype Op =
    | PageResult(gen: nat, key: PageKey, result: FunctionResult, freshId: int)
    | LoadingMore(numItems: nat)
    | SettingArgs(args: Option<string>, freshId: int)
    | Resetting(freshId: int)
    | Stopping

  function Step(s: State, op: Op): State {
    match op
    case PageResult(gen, key, result, freshId) => OnPageResult(s, gen, key, result, freshId)
    case LoadingMore(numItems) => LoadMore(s, numItems).0
    case SettingArgs(args, freshId) => SetArgs(s, args, freshId).0
    case Resetting(freshId) => Reset(s, freshId)
    case Stopping => Stop(s)
  }

  function Execute(start: State, ops: seq<Op>): State {
    if ops == [] then start else Step(Execute(start, ops[..|ops| - 1]), ops[|ops| - 1])
  }

  /** A helper as constructed: one subscribed first page. */
  ghost predicate IsStart(s: State) {
    exists path, n, args, id, listening :: s == Start(path, n, args, id, listening)
  }

  // ---- Bookkeeping invariant ----------------------------------------------

  predicate Fresh(nextKey: PageKey, p: Page) { 1 <= p.key <= nextKey }

  ghost predicate KeysFresh(s: State) {
    && (forall i :: 0 <= i < |s.pages| ==> Fresh(s.nextKey, s.pages[i]))
    && (forall j :: 0 <= j < |s.splits| ==> Fresh(s.nextKey, s.splits[j].first) && Fresh(s.nextKey, s.splits[j].second))
  }

  ghost predicate PagesDistinct(pages: seq<Page>) {
    forall i, j :: 0 <= i < j < |pages| ==> pages[i].key != pages[j].key
  }

  ghost predicate HalvesDistinct(splits: seq<PendingSplit>) {
    && (forall j :: 0 <= j < |splits| ==> splits[j].first.key != splits[j].second.key)
    && (forall i, j :: 0 <= i < j < |splits| ==>
          !IsHalf(splits[j], splits[i].first.key) && !IsHalf(splits[j], splits[i].second.key))
  }

  /** No active page is a half, and no half is being split. */
  ghost predicate Apart(pages: seq<Page>, splits: seq<PendingSplit>) {
    forall i, j :: 0 <= i < |pages| && 0 <= j < |splits| ==> !IsHalf(splits[j], pages[i].key)
  }

  /** Keys are distinct across pages and halves and never ahead of nextKey. */
  ghost predicate KeysDistinct(s: State) {
    KeysFresh(s) && PagesDistinct(s.pages) && HalvesDistinct(s.splits) && Apart(s.pages, s.splits)
  }

  /** Every split in flight replaces one active page, and no page has two. */
  ghost predicate OriginalsActive(s: State) {
    && (forall j :: 0 <= j < |s.splits| ==> PageIndex(s.pages, s.splits[j].original) < |s.pages|)
    && (forall i, j :: 0 <= i < j < |s.splits| ==> s.splits[i].original != s.splits[j].original)
  }

  ghost predicate Booked(s: State) {
    && KeysDistinct(s)
    && OriginalsActive(s)
    && (s.stopped ==> s.pages == [] && s.splits == [])
    && (!s.stopped ==> s.pages != [])
  }

  // ---- Tiling invariant -----------------------------------------------------

  /** The end cursor the server has fixed for each page key. */
  type Ends = PageKey -> string

  /** Where a page ends: at its endCursor when it was given one, else where the server fixed it. */
  function End(p: Page, ends: Ends): string {
    if p.endCursor.Some? then p.endCursor.value else ends(p.key)
  }

  /** The page list is a chain: it begins at the beginning and each page starts where the last one ends. */
  ghost predicate Chained(pages: seq<Page>, ends: Ends) {
    && (pages != [] ==> pages[0].cursor == None)
    && (forall i :: 0 < i < |pages| ==> pages[i].cursor == Some(End(pages[i - 1], ends)))
  }

  /** The halves of `split` meet, and together cover exactly what `original` covers. */
  ghost predicate Covers(split: PendingSplit, original: Page, ends: Ends) {
    && split.first.cursor == original.cursor
    && split.first.endCursor.Some?
    && split.second.cursor == split.first.endCursor
    && split.second.endCursor == Some(End(original, ends))
  }

  ghost predicate SplitsCover(s: State, ends: Ends) {
    forall i, j :: 0 <= i < |s.pages| && 0 <= j < |s.splits| && s.pages[i].key == s.splits[j].original ==>
      Covers(s.splits[j], s.pages[i], ends)
  }

  /** A loaded page reports the end it was fixed at, and is subscribed to exactly its own range. */
  ghost predicate Faithful(s: State, p: Page, ends: Ends) {
    && (Loaded(p).Some? ==> Loaded(p).value.continueCursor == End(p, ends))
    && p.sub.Some?
    && p.sub.value == PageQuery(s.userArgs, p.sub.value.numItems, p.cursor, p.endCursor, s.paginationId)
  }

  ghost predicate AllFaithful(s: State, ends: Ends) {
    && (forall i :: 0 <= i < |s.pages| ==> Faithful(s, s.pages[i], ends))
    && (forall j :: 0 <= j < |s.splits| ==>
          Faithful(s, s.splits[j].first, ends) && Faithful(s, s.splits[j].second, ends))
  }

  ghost predicate Tiled(s: State, ends: Ends) {
    Chained(s.pages, ends) && SplitsCover(s, ends) && AllFaithful(s, ends)
  }

  /**
   * What is assumed of the server: a page's continueCursor never differs from the end fixed for that
   * page, and equals the endCursor the page was subscribed with, if any. Results for pages that no
   * longer exist, and results that are errors or not pages at all, are unrestricted.
   */
  ghost predicate ConformingOp(s: State, op: Op, ends: Ends) {
    op.PageResult? && op.gen == s.generation && !FindPlace(s, op.key).Nowhere? && op.result.Success?
      && ParsePage(op.result.value).Some?
    ==> ParsePage(op.result.value).value.continueCursor == End(At(s, FindPlace(s, op.key)), ends)
  }

  ghost predicate Conforming(start: State, ops: seq<Op>, ends: Ends) {
    forall k :: 0 <= k < |ops| ==> ConformingOp(Execute(start, ops[..k]), ops[k], ends)
  }

  // ---- Each step keeps both ------------------------------------------------

  ghost predicate Sound(s: State, ends: Ends) { Booked(s) && Tiled(s, ends) }

  predicate IsActive(s: State, key: PageKey) { PageIndex(s.pages, key) < |s.pages| }

  lemma AddPageBooked(s: State, numItems: nat, cursor: Option<string>)
    requires KeysDistinct(s) && OriginalsActive(s) && !s.stopped
    ensures Booked(AddPage(s, numItems, cursor))
  {
    var s1 := AddPage(s, numItems, cursor);
    forall j | 0 <= j < |s1.splits|
      ensures PageIndex(s1.pages, s1.splits[j].original) < |s1.pages|
    {
      var i := PageIndex(s.pages, s1.splits[j].original);
      assert s1.pages[i] == s.pages[i];
    }
  }

  lemma AddPageTiled(s: State, numItems: nat, cursor: Option<string>, ends: Ends)
    requires KeysFresh(s) && OriginalsActive(s) && Tiled(s, ends)
    requires cursor == if s.pages == [] then None else Some(End(s.pages[|s.pages| - 1], ends))
    ensures Tiled(AddPage(s, numItems, cursor), ends)
  {
    var s1 := AddPage(s, numItems, cursor);
    forall i, j | 0 <= i < |s1.pages| && 0 <= j < |s1.splits| && s1.pages[i].key == s1.splits[j].original
      ensures Covers(s1.splits[j], s1.pages[i], ends)
    {
      assert Fresh(s.nextKey, s.pages[PageIndex(s.pages, s.splits[j].original)]);
    }
  }

  lemma AddPageSound(s: State, numItems: nat, cursor: Option<string>, ends: Ends)
    requires KeysDistinct(s) && OriginalsActive(s) && !s.stopped && Tiled(s, ends)
    requires cursor == if s.pages == [] then None else Some(End(s.pages[|s.pages| - 1], ends))
    ensures Sound(AddPage(s, numItems, cursor), ends)
  {
    AddPageBooked(s, numItems, cursor);
    AddPageTiled(s, numItems, cursor, ends);
  }

  lemma ResetSound(s: State, freshId: int, ends: Ends)
    requires !s.stopped
    ensures Sound(DoReset(s, freshId), ends)
  {
    AddPageSound(s.(generation := s.generation + 1, paginationId := freshId, splits := [], pages := []),
                 s.initialNumItems, None, ends);
  }

  lemma StartSplitBooked(s: State, i: nat, splitCursor: string, continueCursor: string)
    requires Booked(s) && i < |s.pages| && !IsSplitting(s.splits, s.pages[i].key)
    ensures Booked(StartSplit(s, s.pages[i], splitCursor, continueCursor))
  {
    var halves := Halves(s, s.pages[i], splitCursor, continueCursor);
    var s1 := StartSplit(s, s.pages[i], splitCursor, continueCursor);
    forall j | 0 <= j < |s1.splits|
      ensures s1.splits[j] == if j < |s.splits| then s.splits[j] else halves
      ensures PageIndex(s1.pages, s1.splits[j].original) < |s1.pages|
      ensures j < |s.splits| ==> s1.splits[j].original != halves.original
    {
    }
    forall j | 0 <= j < |s.splits|
      ensures !IsHalf(halves, s.splits[j].first.key) && !IsHalf(halves, s.splits[j].second.key)
    {
      assert Fresh(s.nextKey, s.splits[j].first) && Fresh(s.nextKey, s.splits[j].second);
    }
    assert Apart(s1.pages, s1.splits);
  }

  lemma StartSplitTiled(s: State, i: nat, splitCursor: string, ends: Ends)
    requires Booked(s) && Tiled(s, ends) && i < |s.pages|
    ensures Tiled(StartSplit(s, s.pages[i], splitCursor, End(s.pages[i], ends)), ends)
  {
    var p := s.pages[i];
    var s1 := StartSplit(s, p, splitCursor, End(p, ends));
    assert Covers(s1.splits[|s.splits|], p, ends);
    forall k, j | 0 <= k < |s1.pages| && 0 <= j < |s1.splits| && s1.pages[k].key == s1.splits[j].original
      ensures Covers(s1.splits[j], s1.pages[k], ends)
    {
      if j == |s.splits| { assert k == i; }
    }
  }

  lemma StartSplitSound(s: State, i: nat, ends: Ends)
    requires Sound(s, ends) && i < |s.pages|
    requires Loaded(s.pages[i]).Some? && Loaded(s.pages[i]).value.splitCursor.Some?
    requires !IsSplitting(s.splits, s.pages[i].key)
    ensures var f := Loaded(s.pages[i]).value;
            Sound(StartSplit(s, s.pages[i], f.splitCursor.value, f.continueCursor), ends)
  {
    var f := Loaded(s.pages[i]).value;
    assert Faithful(s, s.pages[i], ends);
    StartSplitBooked(s, i, f.splitCursor.value, f.continueCursor);
    StartSplitTiled(s, i, f.splitCursor.value, ends);
  }

  lemma ConsiderSplitSound(s: State, key: PageKey, ends: Ends)
    requires Sound(s, ends) && IsActive(s, key)
    ensures Sound(ConsiderSplit(s, key), ends)
    ensures ConsiderSplit(s, key).pages == s.pages
  {
    var i := PageIndex(s.pages, key);
    var f := Loaded(s.pages[i]);
    if f.Some? && !IsSplitting(s.splits, key) && WantsSplit(f.value, s.initialNumItems) {
      StartSplitSound(s, i, ends);
    }
  }

  lemma WithoutSplitBooked(s: State, index: nat)
    requires Booked(s) && index < |s.splits|
    ensures Booked(WithoutSplit(s, index))
    ensures !IsSplitting(WithoutSplit(s, index).splits, s.splits[index].original)
  {
    var s1 := WithoutSplit(s, index);
    forall j | 0 <= j < |s1.splits|
      ensures s1.splits[j] == s.splits[if j < index then j else j + 1]
    {
    }
  }

  lemma WithoutSplitTiled(s: State, index: nat, ends: Ends)
    requires Tiled(s, ends) && index < |s.splits|
    ensures Tiled(WithoutSplit(s, index), ends)
  {
    var s1 := WithoutSplit(s, index);
    forall j | 0 <= j < |s1.splits|
      ensures s1.splits[j] == s.splits[if j < index then j else j + 1]
    {
    }
  }

  lemma WithoutSplitSound(s: State, index: nat, ends: Ends)
    requires Sound(s, ends) && index < |s.splits|
    ensures Sound(WithoutSplit(s, index), ends)
    ensures !IsSplitting(WithoutSplit(s, index).splits, s.splits[index].original)
  {
    WithoutSplitBooked(s, index);
    WithoutSplitTiled(s, index, ends);
  }

  /** `s1` differs from `s` at most in the results of its pages and halves. */
  ghost predicate OnlyResultsDiffer(s: State, s1: State) {
    && s1 == s.(pages := s1.pages, splits := s1.splits)
    && |s1.pages| == |s.pages| && |s1.splits| == |s.splits|
    && (forall i :: 0 <= i < |s.pages| ==> s1.pages[i] == s.pages[i].(result := s1.pages[i].result))
    && (forall j :: 0 <= j < |s.splits| ==>
          && s1.splits[j].original == s.splits[j].original
          && s1.splits[j].first == s.splits[j].first.(result := s1.splits[j].first.result)
          && s1.splits[j].second == s.splits[j].second.(result := s1.splits[j].second.result))
  }

  lemma OnlyResultsSameIndexes(s: State, s1: State)
    requires OnlyResultsDiffer(s, s1)
    ensures forall key :: PageIndex(s1.pages, key) == PageIndex(s.pages, key)
    ensures forall key :: HalfIndex(s1.splits, key) == HalfIndex(s.splits, key)
  {
    forall key
      ensures PageIndex(s1.pages, key) == PageIndex(s.pages, key)
    {
      SameKeysSameIndex(s.pages, s1.pages, key);
    }
    forall key
      ensures HalfIndex(s1.splits, key) == HalfIndex(s.splits, key)
    {
      SameKeysSameHalf(s.splits, s1.splits, key);
    }
  }

  lemma OnlyResultsBooked(s: State, s1: State)
    requires Booked(s) && OnlyResultsDiffer(s, s1)
    ensures Booked(s1)
  {
    forall j | 0 <= j < |s1.splits|
      ensures PageIndex(s1.pages, s1.splits[j].original) < |s1.pages|
    {
      SameKeysSameIndex(s.pages, s1.pages, s1.splits[j].original);
    }
  }

  lemma OnlyResultsTiled(s: State, s1: State, ends: Ends)
    requires Tiled(s, ends) && OnlyResultsDiffer(s, s1) && AllFaithful(s1, ends)
    ensures Tiled(s1, ends)
  {
    forall i, j | 0 <= i < |s1.pages| && 0 <= j < |s1.splits| && s1.pages[i].key == s1.splits[j].original
      ensures Covers(s1.splits[j], s1.pages[i], ends)
    {
      assert Covers(s.splits[j], s.pages[i], ends);
    }
  }

  lemma PutDiffers(s: State, place: Place, p: Page)
    requires PlaceOk(s, place) && p == At(s, place).(result := p.result)
    ensures OnlyResultsDiffer(s, Put(s, place, p))
  {
  }

  lemma PutFaithful(s: State, place: Place, p: Page, ends: Ends)
    requires AllFaithful(s, ends) && PlaceOk(s, place) && Faithful(s, p, ends)
    ensures AllFaithful(Put(s, place, p), ends)
  {
    var s1 := Put(s, place, p);
    assert s1 == s.(pages := s1.pages, splits := s1.splits);
  }

  lemma PutSound(s: State, place: Place, p: Page, ends: Ends)
    requires Sound(s, ends) && PlaceOk(s, place)
    requires p == At(s, place).(result := p.result) && Faithful(s, p, ends)
    ensures Sound(Put(s, place, p), ends)
    ensures OnlyResultsDiffer(s, Put(s, place, p))
  {
    PutDiffers(s, place, p);
    PutFaithful(s, place, p, ends);
    OnlyResultsBooked(s, Put(s, place, p));
    OnlyResultsTiled(s, Put(s, place, p), ends);
  }

  lemma {:induction false} SameKeysSameIndex(xs: seq<Page>, ys: seq<Page>, key: PageKey)
    requires |xs| == |ys| && forall i :: 0 <= i < |xs| ==> xs[i].key == ys[i].key
    ensures PageIndex(xs, key) == PageIndex(ys, key)
  {
    if xs != [] { SameKeysSameIndex(xs[1..], ys[1..], key); }
  }

  lemma {:induction false} SameKeysSameHalf(xs: seq<PendingSplit>, ys: seq<PendingSplit>, key: PageKey)
    requires |xs| == |ys| && forall i :: 0 <= i < |xs| ==> IsHalf(xs[i], key) == IsHalf(ys[i], key)
    ensures HalfIndex(xs, key) == HalfIndex(ys, key)
  {
    if xs != [] { SameKeysSameHalf(xs[1..], ys[1..], key); }
  }

  // The swap: page `at` is replaced by the halves of a split that has left the pending list.

  /** A split of page `at` that is not in `s.splits`, whose halves have keys of their own. */
  ghost predicate Spare(s: State, at: nat, split: PendingSplit) {
    && at < |s.pages| && split.original == s.pages[at].key
    && Fresh(s.nextKey, split.first) && Fresh(s.nextKey, split.second) && split.first.key != split.second.key
    && !IsSplitting(s.splits, split.original)
    && (forall i :: 0 <= i < |s.pages| ==> !IsHalf(split, s.pages[i].key))
    && (forall j :: 0 <= j < |s.splits| ==>
          !IsHalf(s.splits[j], split.first.key) && !IsHalf(s.splits[j], split.second.key))
  }

  /** A spare split whose halves cover the page they are to replace. */
  ghost predicate Swappable(s: State, at: nat, split: PendingSplit, ends: Ends) {
    && Spare(s, at, split)
    && Covers(split, s.pages[at], ends)
    && Faithful(s, split.first, ends) && Faithful(s, split.second, ends)
  }

  /** Where an old page, other than the replaced one, sits after the swap. */
  function Shifted(i: nat, at: nat): nat { if i < at then i else i + 1 }

  /** Where a page other than the new halves was before the swap. */
  function Before(k: nat, at: nat): nat { if k <= at then k else k - 1 }

  lemma SwappedAt(pages: seq<Page>, at: nat, f: Page, g: Page, k: nat)
    requires at < |pages| && k < |Swapped(pages, at, f, g)|
    ensures Swapped(pages, at, f, g)[k] == if k == at then f else if k == at + 1 then g else pages[Before(k, at)]
  {
    assert Swapped(pages, at, f, g) == (pages[..at] + [f, g]) + pages[at + 1..];
  }

  lemma SwappedDistinct(pages: seq<Page>, at: nat, f: Page, g: Page)
    requires PagesDistinct(pages) && at < |pages| && f.key != g.key
    requires forall i :: 0 <= i < |pages| ==> pages[i].key != f.key && pages[i].key != g.key
    ensures PagesDistinct(Swapped(pages, at, f, g))
  {
    var swapped := Swapped(pages, at, f, g);
    forall i, j | 0 <= i < j < |swapped|
      ensures swapped[i].key != swapped[j].key
    {
      SwappedAt(pages, at, f, g, i);
      SwappedAt(pages, at, f, g, j);
    }
  }

  lemma SwappedApart(pages: seq<Page>, splits: seq<PendingSplit>, at: nat, f: Page, g: Page)
    requires Apart(pages, splits) && at < |pages|
    requires forall j :: 0 <= j < |splits| ==> !IsHalf(splits[j], f.key) && !IsHalf(splits[j], g.key)
    ensures Apart(Swapped(pages, at, f, g), splits)
  {
    var swapped := Swapped(pages, at, f, g);
    forall i, j | 0 <= i < |swapped| && 0 <= j < |splits|
      ensures !IsHalf(splits[j], swapped[i].key)
    {
      SwappedAt(pages, at, f, g, i);
    }
  }

  lemma SwapBooked(s: State, at: nat, split: PendingSplit)
    requires Booked(s) && !s.stopped && Spare(s, at, split)
    ensures Booked(SwapIn(s, at, split))
  {
    var s1 := SwapIn(s, at, split);
    var f, g := split.first, split.second;
    SwappedDistinct(s.pages, at, f, g);
    SwappedApart(s.pages, s.splits, at, f, g);
    forall i | 0 <= i < |s1.pages|
      ensures Fresh(s1.nextKey, s1.pages[i])
    {
      SwappedAt(s.pages, at, f, g, i);
    }
    forall j | 0 <= j < |s1.splits|
      ensures PageIndex(s1.pages, s1.splits[j].original) < |s1.pages|
    {
      var i := PageIndex(s.pages, s.splits[j].original);
      assert i != at;
      SwappedAt(s.pages, at, f, g, Shifted(i, at));
    }
  }

  lemma SwapChained(pages: seq<Page>, at: nat, split: PendingSplit, ends: Ends)
    requires Chained(pages, ends) && at < |pages| && Covers(split, pages[at], ends)
    ensures Chained(Swapped(pages, at, split.first, split.second), ends)
  {
    var swapped := Swapped(pages, at, split.first, split.second);
    forall k | 0 <= k < |swapped|
      ensures k == 0 ==> swapped[k].cursor == None
      ensures k > 0 ==> swapped[k].cursor == Some(End(swapped[k - 1], ends))
    {
      SwappedAt(pages, at, split.first, split.second, k);
      if k > 0 { SwappedAt(pages, at, split.first, split.second, k - 1); }
    }
  }

  lemma SwapTiled(s: State, at: nat, split: PendingSplit, ends: Ends)
    requires OriginalsActive(s) && Tiled(s, ends) && Swappable(s, at, split, ends)
    ensures Tiled(SwapIn(s, at, split), ends)
  {
    var s1 := SwapIn(s, at, split);
    SwapChained(s.pages, at, split, ends);
    forall k, j | 0 <= k < |s1.pages| && 0 <= j < |s1.splits| && s1.pages[k].key == s1.splits[j].original
      ensures Covers(s1.splits[j], s1.pages[k], ends)
    {
      SwappedAt(s.pages, at, split.first, split.second, k);
      var o := PageIndex(s.pages, s.splits[j].original);
      assert !IsHalf(split, s.pages[o].key);
    }
    forall k | 0 <= k < |s1.pages|
      ensures Faithful(s1, s1.pages[k], ends)
    {
      SwappedAt(s.pages, at, split.first, split.second, k);
    }
  }

  /** A split taken off the pending list is spare. */
  lemma TakenSplitSpare(s: State, index: nat)
    requires Booked(s) && index < |s.splits|
    ensures Spare(WithoutSplit(s, index), PageIndex(s.pages, s.splits[index].original), s.splits[index])
  {
    var rest := WithoutSplit(s, index);
    WithoutSplitBooked(s, index);
    assert forall j :: 0 <= j < |rest.splits| ==> rest.splits[j] == s.splits[if j < index then j else j + 1];
  }

  /** A split taken off the pending list is ready to replace its page. */
  lemma TakenSplitSwappable(s: State, index: nat, ends: Ends)
    requires Sound(s, ends) && index < |s.splits|
    ensures Swappable(WithoutSplit(s, index), PageIndex(s.pages, s.splits[index].original), s.splits[index], ends)
  {
    TakenSplitSpare(s, index);
  }

  lemma CompletedSplitSound(s: State, at: nat, split: PendingSplit, ends: Ends)
    requires Sound(s, ends) && !s.stopped && Swappable(s, at, split, ends)
    ensures Sound(ConsiderSplit(ConsiderSplit(SwapIn(s, at, split), split.first.key), split.second.key), ends)
  {
    var swapped := SwapIn(s, at, split);
    SwapBooked(s, at, split);
    SwapTiled(s, at, split, ends);
    SwappedAt(s.pages, at, split.first, split.second, at);
    SwappedAt(s.pages, at, split.first, split.second, at + 1);
    ConsiderSplitSound(swapped, split.first.key, ends);
    ConsiderSplitSound(ConsiderSplit(swapped, split.first.key), split.second.key, ends);
  }

  lemma AdvanceSplitSound(s: State, index: nat, ends: Ends)
    requires Sound(s, ends) && index < |s.splits| && !s.stopped
    ensures Sound(AdvanceSplit(s, index), ends)
  {
    var split := s.splits[index];
    if HalfFailed(split) || !HalfMissing(split) {
      WithoutSplitSound(s, index, ends);
    }
    if !HalfFailed(split) && !HalfMissing(split) {
      TakenSplitSwappable(s, index, ends);
      CompletedSplitSound(WithoutSplit(s, index), PageIndex(s.pages, split.original), split, ends);
    }
  }

  lemma DeliverSound(s: State, key: PageKey, r: FunctionResult, freshId: int, ends: Ends)
    requires Sound(s, ends) && !s.stopped && !FindPlace(s, key).Nowhere?
    requires ConformingOp(s, PageResult(s.generation, key, r, freshId), ends)
    ensures Sound(Deliver(s, key, r, freshId), ends)
  {
    hide Booked, DoReset, AdvanceSplit, ConsiderSplit;
    var place := FindPlace(s, key);
    var p := At(s, place).(result := Some(r));
    PutSound(s, place, p, ends);
    var s1 := Put(s, place, p);
    OnlyResultsSameIndexes(s, s1);
    if IsInvalidCursor(r) {
      ResetSound(s1, freshId, ends);
    } else if HalfIndex(s1.splits, key) < |s1.splits| {
      AdvanceSplitSound(s1, HalfIndex(s1.splits, key), ends);
    } else {
      ConsiderSplitSound(s1, key, ends);
    }
  }

  /** What has been published makes no difference to what is kept. */
  lemma NotifySound(s: State, ends: Ends)
    requires Sound(s, ends)
    ensures Sound(Notify(s), ends)
  {
    var s1 := Notify(s);
    assert s1.pages == s.pages && s1.splits == s.splits && s1.nextKey == s.nextKey && s1.stopped == s.stopped;
    assert Booked(s1);
    TiledAlike(s, s1, ends);
  }

  lemma TiledAlike(s: State, s1: State, ends: Ends)
    requires Tiled(s, ends) && s1.pages == s.pages && s1.splits == s.splits
    requires s1.userArgs == s.userArgs && s1.paginationId == s.paginationId
    ensures Tiled(s1, ends)
  {
    forall p | Faithful(s, p, ends)
      ensures Faithful(s1, p, ends)
    {
    }
  }

  lemma LoadMoreSound(s: State, numItems: nat, ends: Ends)
    requires Sound(s, ends)
    ensures Sound(LoadMore(s, numItems).0, ends)
  {
    if LoadMore(s, numItems).1 {
      var last := s.pages[|s.pages| - 1];
      assert Complete(last) && Loaded(last).value.continueCursor == End(last, ends);
      hide ComputeSnapshot, Included, Loaded, Complete, Chained, SplitsCover, Faithful;
      AddPageSound(s, numItems, Some(Loaded(last).value.continueCursor), ends);
      NotifySound(AddPage(s, numItems, Some(Loaded(last).value.continueCursor)), ends);
    }
  }

  lemma PageResultSound(s: State, gen: nat, key: PageKey, r: FunctionResult, freshId: int, ends: Ends)
    requires Sound(s, ends) && ConformingOp(s, PageResult(gen, key, r, freshId), ends)
    ensures Sound(OnPageResult(s, gen, key, r, freshId), ends)
  {
    if !s.stopped && gen == s.generation && !FindPlace(s, key).Nowhere? {
      DeliverSound(s, key, r, freshId, ends);
      NotifySound(Deliver(s, key, r, freshId), ends);
    }
  }

  lemma SetArgsSound(s: State, args: Option<string>, freshId: int, ends: Ends)
    requires Sound(s, ends)
    ensures Sound(SetArgs(s, args, freshId).0, ends)
  {
    if SetArgs(s, args, freshId).1 {
      var s1 := s.(userArgs := args.value);
      ResetSound(s1, freshId, ends);
      NotifySound(DoReset(s1, freshId), ends);
    }
  }

  lemma SoundStep(s: State, op: Op, ends: Ends)
    requires Sound(s, ends) && ConformingOp(s, op, ends)
    ensures Sound(Step(s, op), ends)
  {
    match op
    case PageResult(gen, key, r, freshId) => PageResultSound(s, gen, key, r, freshId, ends);
    case LoadingMore(numItems) => LoadMoreSound(s, numItems, ends);
    case SettingArgs(args, freshId) => SetArgsSound(s, args, freshId, ends);
    case Resetting(freshId) =>
      if !s.stopped {
        ResetSound(s, freshId, ends);
        NotifySound(DoReset(s, freshId), ends);
      }
    case Stopping =>
  }

  lemma StartSound(start: State, ends: Ends)
    requires IsStart(start)
    ensures Sound(start, ends)
  {
    var path, n, args, id, listening :| start == Start(path, n, args, id, listening);
    AddPageSound(Blank(path, n, args, id, listening), n, None, ends);
  }

  lemma {:induction false} SoundAlways(start: State, ops: seq<Op>, ends: Ends)
    requires IsStart(start) && Conforming(start, ops, ends)
    ensures Sound(Execute(start, ops), ends)
  {
    if ops == [] {
      StartSound(start, ends);
    } else {
      var init := ops[..|ops| - 1];
      assert forall k :: 0 <= k < |init| ==> init[..k] == ops[..k];
      SoundAlways(start, init, ends);
      SoundStep(Execute(start, init), ops[|ops| - 1], ends);
    }
  }

  // ---- Theorem: the bookkeeping holds -----------------------------------------

  lemma ConsiderSplitBooked(s: State, key: PageKey)
    requires Booked(s) && IsActive(s, key)
    ensures Booked(ConsiderSplit(s, key)) && ConsiderSplit(s, key).pages == s.pages
  {
    var i := PageIndex(s.pages, key);
    var f := Loaded(s.pages[i]);
    if f.Some? && !IsSplitting(s.splits, key) && WantsSplit(f.value, s.initialNumItems) {
      StartSplitBooked(s, i, f.value.splitCursor.value, f.value.continueCursor);
    }
  }

  lemma CompletedSplitBooked(s: State, at: nat, split: PendingSplit)
    requires Booked(s) && !s.stopped && Spare(s, at, split)
    ensures Booked(ConsiderSplit(ConsiderSplit(SwapIn(s, at, split), split.first.key), split.second.key))
  {
    var swapped := SwapIn(s, at, split);
    SwapBooked(s, at, split);
    SwappedAt(s.pages, at, split.first, split.second, at);
    SwappedAt(s.pages, at, split.first, split.second, at + 1);
    ConsiderSplitBooked(swapped, split.first.key);
    ConsiderSplitBooked(ConsiderSplit(swapped, split.first.key), split.second.key);
  }

  lemma AdvanceSplitBooked(s: State, index: nat)
    requires Booked(s) && index < |s.splits| && !s.stopped
    ensures Booked(AdvanceSplit(s, index))
  {
    var split := s.splits[index];
    WithoutSplitBooked(s, index);
    if !HalfFailed(split) && !HalfMissing(split) {
      TakenSplitSpare(s, index);
      CompletedSplitBooked(WithoutSplit(s, index), PageIndex(s.pages, split.original), split);
    }
  }

  lemma DeliverBooked(s: State, key: PageKey, r: FunctionResult, freshId: int)
    requires Booked(s) && !s.stopped && !FindPlace(s, key).Nowhere?
    ensures Booked(Deliver(s, key, r, freshId))
  {
    var place := FindPlace(s, key);
    var p := At(s, place).(result := Some(r));
    var s1 := Put(s, place, p);
    PutDiffers(s, place, p);
    OnlyResultsBooked(s, s1);
    OnlyResultsSameIndexes(s, s1);
    if IsInvalidCursor(r) {
      ResetBooked(s1, freshId);
    } else if HalfIndex(s1.splits, key) < |s1.splits| {
      AdvanceSplitBooked(s1, HalfIndex(s1.splits, key));
    } else {
      ConsiderSplitBooked(s1, key);
    }
  }

  lemma ResetBooked(s: State, freshId: int)
    requires !s.stopped
    ensures Booked(DoReset(s, freshId))
  {
    AddPageBooked(s.(generation := s.generation + 1, paginationId := freshId, splits := [], pages := []),
                  s.initialNumItems, None);
  }

  lemma BookedStep(s: State, op: Op)
    requires Booked(s)
    ensures Booked(Step(s, op))
  {
    match op
    case PageResult(gen, key, r, freshId) =>
      if !s.stopped && gen == s.generation && !FindPlace(s, key).Nowhere? { DeliverBooked(s, key, r, freshId); }
    case LoadingMore(numItems) =>
      if LoadMore(s, numItems).1 {
        AddPageBooked(s, numItems, Some(Loaded(s.pages[|s.pages| - 1]).value.continueCursor));
      }
    case SettingArgs(args, freshId) =>
      if SetArgs(s, args, freshId).1 { ResetBooked(s.(userArgs := args.value), freshId); }
    case Resetting(freshId) =>
      if !s.stopped { ResetBooked(s, freshId); }
    case Stopping =>
  }

  /** Whatever results arrive, from any server. */
  lemma {:induction false} BookedAlways(start: State, ops: seq<Op>)
    requires IsStart(start)
    ensures Booked(Execute(start, ops))
  {
    if ops == [] {
      var path, n, args, id, listening :| start == Start(path, n, args, id, listening);
      AddPageBooked(Blank(path, n, args, id, listening), n, None);
    } else {
      BookedAlways(start, ops[..|ops| - 1]);
      BookedStep(Execute(start, ops[..|ops| - 1]), ops[|ops| - 1]);
    }
  }

  /**
   * Keys never clash, every split in flight has its page, and the list is never empty before stop; so
   * find_page and advance_split always find what they look for and load_more may read the last page.
   */
  lemma BookkeepingHolds(start: State, ops: seq<Op>)
    requires IsStart(start)
    ensures Booked(Execute(start, ops))
    ensures var s := Execute(start, ops);
            forall j :: 0 <= j < |s.splits| ==>
              FindPlace(s, s.splits[j].original).InPages?
              && FindPlace(s, s.splits[j].first.key) == FirstHalf(j)
              && FindPlace(s, s.splits[j].second.key) == SecondHalf(j)
    ensures var s := Execute(start, ops);
            forall i :: 0 <= i < |s.pages| ==> FindPlace(s, s.pages[i].key) == InPages(i)
  {
    BookedAlways(start, ops);
    var s := Execute(start, ops);
    forall i | 0 <= i < |s.pages|
      ensures FindPlace(s, s.pages[i].key) == InPages(i)
    {
      var k := PageIndex(s.pages, s.pages[i].key);
      assert k <= i && s.pages[k].key == s.pages[i].key;
    }
    forall j | 0 <= j < |s.splits|
      ensures FindPlace(s, s.splits[j].first.key) == FirstHalf(j)
      ensures FindPlace(s, s.splits[j].second.key) == SecondHalf(j)
    {
      HalfFound(s, j, s.splits[j].first.key);
      HalfFound(s, j, s.splits[j].second.key);
    }
  }

  lemma HalfFound(s: State, j: nat, key: PageKey)
    requires KeysDistinct(s) && j < |s.splits| && IsHalf(s.splits[j], key)
    ensures HalfIndex(s.splits, key) == j && PageIndex(s.pages, key) == |s.pages|
  {
    var k := HalfIndex(s.splits, key);
    assert k <= j && (key == s.splits[k].first.key || key == s.splits[k].second.key);
    forall i | 0 <= i < |s.pages|
      ensures s.pages[i].key != key
    {
      assert !IsHalf(s.splits[j], s.pages[i].key);
    }
  }

  // ---- Theorem: splits are invisible until they complete -----------------------

  /** Storing a half's result finds the same split again, failed or still missing its other half. */
  lemma HalfStored(s: State, key: PageKey, r: FunctionResult)
    requires Booked(s) && HalfIndex(s.splits, key) < |s.splits|
    requires var split := s.splits[HalfIndex(s.splits, key)];
             !r.Success? || (if split.first.key == key then split.second.result.None? else split.first.result.None?)
    ensures var (j, place) := (HalfIndex(s.splits, key), FindPlace(s, key));
            && !place.Nowhere?
            && var s1 := Put(s, place, At(s, place).(result := Some(r)));
            && s1.pages == s.pages && s1.udfPath == s.udfPath
            && HalfIndex(s1.splits, key) == j < |s1.splits| && (HalfFailed(s1.splits[j]) || HalfMissing(s1.splits[j]))
  {
    var j := HalfIndex(s.splits, key);
    HalfFound(s, j, key);
    var place := FindPlace(s, key);
    var s1 := Put(s, place, At(s, place).(result := Some(r)));
    assert forall i :: 0 <= i < |s.splits| ==> IsHalf(s.splits[i], key) == IsHalf(s1.splits[i], key);
    SameKeysSameHalf(s.splits, s1.splits, key);
  }

  lemma HalfResultKeepsPages(s: State, gen: nat, key: PageKey, r: FunctionResult, freshId: int)
    requires Booked(s) && !IsInvalidCursor(r) && HalfIndex(s.splits, key) < |s.splits|
    requires var split := s.splits[HalfIndex(s.splits, key)];
             !r.Success? || (if split.first.key == key then split.second.result.None? else split.first.result.None?)
    ensures var s1 := OnPageResult(s, gen, key, r, freshId);
            s1.pages == s.pages && s1.udfPath == s.udfPath
  {
    hide Booked, HalfIndex, FindPlace, Put, At, HalfFailed, HalfMissing, ConsiderSplit, SwapIn, ComputeSnapshot;
    HalfStored(s, key, r);
  }

  /** A half's result that does not complete its split, nor reset the session, changes no active page. */
  lemma HalfResultIsInvisible(s: State, gen: nat, key: PageKey, r: FunctionResult, freshId: int)
    requires Booked(s) && !IsInvalidCursor(r) && HalfIndex(s.splits, key) < |s.splits|
    requires var split := s.splits[HalfIndex(s.splits, key)];
             !r.Success? || (if split.first.key == key then split.second.result.None? else split.first.result.None?)
    ensures ComputeSnapshot(OnPageResult(s, gen, key, r, freshId)) == ComputeSnapshot(s)
  {
    HalfResultKeepsPages(s, gen, key, r, freshId);
    SnapshotOfPages(s, OnPageResult(s, gen, key, r, freshId));
  }

  lemma SnapshotOfPages(s: State, s1: State)
    requires s1.pages == s.pages && s1.udfPath == s.udfPath
    ensures ComputeSnapshot(s1) == ComputeSnapshot(s)
  {
  }

  lemma HalfFailureDropsSplit(s: State, key: PageKey, r: FunctionResult, freshId: int)
    requires Booked(s) && !s.stopped && !IsInvalidCursor(r) && !r.Success?
    requires HalfIndex(s.splits, key) < |s.splits|
    ensures !FindPlace(s, key).Nowhere?
    ensures Deliver(s, key, r, freshId) == WithoutSplit(s, HalfIndex(s.splits, key))
  {
    var j := HalfIndex(s.splits, key);
    HalfFound(s, j, key);
    var place := FindPlace(s, key);
    var s1 := Put(s, place, At(s, place).(result := Some(r)));
    PutHalf(s, j, place, At(s, place).(result := Some(r)));
    SameKeysSameHalf(s.splits, s1.splits, key);
    assert HalfFailed(s1.splits[j]);
  }

  /** An ordinary failure of a half abandons its split, and the page it was splitting can be split again. */
  lemma HalfFailureFreesOriginal(s: State, key: PageKey, r: FunctionResult, freshId: int)
    requires Booked(s) && !s.stopped && !IsInvalidCursor(r) && !r.Success?
    requires HalfIndex(s.splits, key) < |s.splits|
    ensures var j := HalfIndex(s.splits, key);
            var s1 := OnPageResult(s, s.generation, key, r, freshId);
            && s1 == Notify(s.(splits := s.splits[..j] + s.splits[j + 1..]))
            && !IsSplitting(s1.splits, s.splits[j].original)
  {
    HalfFailureDropsSplit(s, key, r, freshId);
    WithoutSplitBooked(s, HalfIndex(s.splits, key));
  }

  /** A half's result touches its own split only. */
  lemma PutHalf(s: State, j: nat, place: Place, p: Page)
    requires place == FirstHalf(j) || place == SecondHalf(j)
    requires PlaceOk(s, place) && p == At(s, place).(result := p.result)
    ensures var s1 := Put(s, place, p);
            && s1 == s.(splits := s1.splits) && |s1.splits| == |s.splits|
            && s1.splits[..j] == s.splits[..j] && s1.splits[j + 1..] == s.splits[j + 1..]
            && (forall k, key :: 0 <= k < |s.splits| ==> IsHalf(s1.splits[k], key) == IsHalf(s.splits[k], key))
            && s1.splits[j].original == s.splits[j].original
            && (if place.FirstHalf? then s1.splits[j].first == p else s1.splits[j].second == p)
  {
  }

  /** The callback of a page created before the last reset. */
  predicate IsStale(s: State, op: Op) { op.PageResult? && op.gen != s.generation }

  function DropStale(start: State, ops: seq<Op>): seq<Op> {
    if ops == [] then []
    else
      var init, op := ops[..|ops| - 1], ops[|ops| - 1];
      if IsStale(Execute(start, init), op) then DropStale(start, init) else DropStale(start, init) + [op]
  }

  /** Stale callbacks, however many and wherever they land, leave no trace. */
  lemma {:induction false} StaleCallbacksLeaveNoTrace(start: State, ops: seq<Op>)
    ensures Execute(start, DropStale(start, ops)) == Execute(start, ops)
  {
    if ops != [] {
      var init, op := ops[..|ops| - 1], ops[|ops| - 1];
      StaleCallbacksLeaveNoTrace(start, init);
      if !IsStale(Execute(start, init), op) {
        var kept := DropStale(start, init) + [op];
        assert kept[..|kept| - 1] == DropStale(start, init);
      }
    }
  }

  // ---- Theorem: what starts a split, a reset and a new page -----------------------

  /** A half in flight: subscribed to its range under the present session, with no result yet. */
  ghost predicate NewHalf(s: State, p: Page, key: PageKey, cursor: Option<string>, endCursor: string) {
    && p.key == key && p.result.None? && p.cursor == cursor && p.endCursor == Some(endCursor)
    && p.sub == Some(PageQuery(s.userArgs, s.initialNumItems, cursor, Some(endCursor), s.paginationId))
  }

  /** One more split is in flight, of the page under `key` at the split point `v` names, up to where `v` ends. */
  ghost predicate SplitBegun(s: State, s1: State, p: Page, v: Value)
    requires IsPage(v) && HasSplitPoint(v)
  {
    var (middle, end) := (v.fields["splitCursor"].text, v.fields["continueCursor"].text);
    && |s1.splits| == |s.splits| + 1 && s1.splits[..|s.splits|] == s.splits
    && var split := s1.splits[|s.splits|];
    && split.original == p.key
    && NewHalf(s, split.first, s.nextKey + 1, p.cursor, middle)
    && NewHalf(s, split.second, s.nextKey + 2, Some(middle), end)
  }

  /**
   * A success for an active page that is not being split starts a split of it if and only if it has a
   * split point and the server asks for one or the page holds over twice the requested number of items. The
   * halves are subscribed from the page's start to the split point, and from there to the page's end.
   */
  lemma SplitStartsIff(s: State, key: PageKey, r: FunctionResult, freshId: int)
    requires Booked(s) && !s.stopped && IsActive(s, key) && !IsSplitting(s.splits, key) && r.Success?
    ensures var s1 := OnPageResult(s, s.generation, key, r, freshId);
            && (if ShouldSplit(r.value, s.initialNumItems)
                then SplitBegun(s, s1, s.pages[PageIndex(s.pages, key)], r.value) else s1.splits == s.splits)
            && (forall i :: 0 <= i < |s.splits| ==> s.splits[i].original != key)
            && s1.pages == s.pages[PageIndex(s.pages, key) := s.pages[PageIndex(s.pages, key)].(result := Some(r))]
  {
    var place := FindPlace(s, key);
    var p := At(s, place).(result := Some(r));
    var s1 := Put(s, place, p);
    PutDiffers(s, place, p);
    OnlyResultsSameIndexes(s, s1);
    assert Apart(s.pages, s.splits);
    assert !IsHalfOfAny(s.splits, s.pages[place.i].key);
    NoHalf(s.splits, key);
    assert At(s1, FindPlace(s1, key)) == p;
    ShouldSplitReads(r.value, s.initialNumItems);
    ParsePageReads(r.value);
  }

  predicate IsHalfOfAny(splits: seq<PendingSplit>, key: PageKey) {
    exists j :: 0 <= j < |splits| && IsHalf(splits[j], key)
  }

  lemma NoHalf(splits: seq<PendingSplit>, key: PageKey)
    requires !IsHalfOfAny(splits, key)
    ensures HalfIndex(splits, key) == |splits|
  {
  }

  /** Looking for a split changes only the splits. */
  lemma ConsiderSplitFrame(s: State, key: PageKey)
    ensures var s1 := ConsiderSplit(s, key); s1 == s.(splits := s1.splits, nextKey := s1.nextKey)
  {
  }

  lemma AdvanceSplitFrame(s: State, index: nat)
    requires index < |s.splits|
    ensures var s1 := AdvanceSplit(s, index); s1 == s.(pages := s1.pages, splits := s1.splits, nextKey := s1.nextKey)
  {
    hide ConsiderSplit;
    var split := s.splits[index];
    var at := PageIndex(s.pages, split.original);
    if at < |s.pages| {
      var swapped := SwapIn(WithoutSplit(s, index), at, split);
      ConsiderSplitFrame(swapped, split.first.key);
      ConsiderSplitFrame(ConsiderSplit(swapped, split.first.key), split.second.key);
    }
  }

  /** Unless it resets the session, a result changes only pages and splits. */
  lemma DeliverFrame(s: State, key: PageKey, r: FunctionResult, freshId: int)
    requires !FindPlace(s, key).Nowhere? && !IsInvalidCursor(r)
    ensures var s1 := Deliver(s, key, r, freshId);
            s1 == s.(pages := s1.pages, splits := s1.splits, nextKey := s1.nextKey)
  {
    hide ConsiderSplit, AdvanceSplit, IsInvalidCursor;
    var place := FindPlace(s, key);
    var s1 := Put(s, place, At(s, place).(result := Some(r)));
    if HalfIndex(s1.splits, key) < |s1.splits| {
      AdvanceSplitFrame(s1, HalfIndex(s1.splits, key));
    } else {
      ConsiderSplitFrame(s1, key);
    }
  }

  /** A new session: one first page, subscribed from the beginning under `args` and `id`, and nothing else. */
  ghost predicate StartedOver(s: State, s1: State, args: string, id: int) {
    && s1.generation == s.generation + 1 && s1.userArgs == args && s1.paginationId == id
    && s1.splits == [] && |s1.pages| == 1 && !s1.stopped
    && s1.pages[0] == Page(s.nextKey + 1, Some(PageQuery(args, s.initialNumItems, None, None, id)), None, None, None)
    && ComputeSnapshot(s1) == Snapshot([], LoadingFirstPage, None)
  }

  lemma ResetStartsOver(s: State, freshId: int)
    requires !s.stopped
    ensures StartedOver(s, Notify(DoReset(s, freshId)), s.userArgs, freshId)
  {
    hide ComputeSnapshot;
    ResetIsEmpty(s, freshId);
    SnapshotOfPages(DoReset(s, freshId), Notify(DoReset(s, freshId)));
  }

  /**
   * A result for a live page or half resets the session if and only if it reports an invalid cursor, whatever it
   * says otherwise; the new session has the same arguments and a new id.
   */
  lemma ResetsIff(s: State, key: PageKey, r: FunctionResult, freshId: int)
    requires !s.stopped && !FindPlace(s, key).Nowhere?
    ensures var s1 := OnPageResult(s, s.generation, key, r, freshId);
            if ReportsInvalidCursor(r) then StartedOver(s, s1, s.userArgs, freshId)
            else s1.generation == s.generation && s1.paginationId == s.paginationId && s1.userArgs == s.userArgs
  {
    hide ConsiderSplit, AdvanceSplit, IsInvalidCursor, ReportsInvalidCursor, ComputeSnapshot;
    InvalidCursorReads(r);
    var place := FindPlace(s, key);
    var s1 := Put(s, place, At(s, place).(result := Some(r)));
    if IsInvalidCursor(r) {
      ResetIsEmpty(s1, freshId);
      SnapshotOfPages(DoReset(s1, freshId), Notify(DoReset(s1, freshId)));
    } else {
      DeliverFrame(s, key, r, freshId);
    }
  }

  /** set_args starts a new session if and only if the argument text changes, and says so. */
  lemma SetArgsIff(s: State, args: Option<string>, freshId: int)
    ensures var (s1, started) := SetArgs(s, args, freshId);
            && (started <==> !s.stopped && args.Some? && args.value != s.userArgs)
            && if started then StartedOver(s, s1, args.value, freshId) else s1 == s
  {
    hide ComputeSnapshot;
    if !s.stopped && args.Some? { ResetStartsOver(s.(userArgs := args.value), freshId); }
  }

  lemma ResetIsEmpty(s: State, freshId: int)
    ensures var s1 := DoReset(s, freshId);
            s1.splits == [] && |s1.pages| == 1 && s1.pages[0].cursor == None
            && ComputeSnapshot(s1) == Snapshot([], LoadingFirstPage, None)
  {
    var s1 := DoReset(s, freshId);
    assert Included(s1.pages) == 0;
    assert s1.pages[..0] == [];
  }

  lemma LoadMoreStarted(s: State, numItems: nat)
    requires LoadMore(s, numItems).1
    ensures var s1 := LoadMore(s, numItems).0;
            && |s1.pages| == |s.pages| + 1 && s1.pages[..|s.pages|] == s.pages
            && Included(s1.pages) == |s.pages| && s1.pages[|s.pages|].result.None?
            && ComputeSnapshot(s).results == Items(s.pages)
  {
    var s1 := LoadMore(s, numItems).0;
    var last := s1.pages[|s.pages|];
    assert s1.pages == s.pages + [last];
    assert s.pages[..|s.pages|] == s.pages;
    CompleteThenLoading(s.pages, last);
  }

  /**
   * load_more starts a page exactly when the snapshot says so, of the size asked for and from where the last page
   * ends, and takes nothing away from the results.
   */
  lemma LoadMoreKeepsResults(s: State, numItems: nat)
    requires Booked(s)
    ensures var (s1, started) := LoadMore(s, numItems);
            && (started <==> numItems > 0 && !s.stopped && ComputeSnapshot(s).status.CanLoadMore?)
            && ComputeSnapshot(s1).results == ComputeSnapshot(s).results
            && (if !started then s1 == s
                else
                  && !ComputeSnapshot(s1).status.CanLoadMore? && ComputeSnapshot(s1).error == None
                  && Finished(s.pages[|s.pages| - 1])
                  && var cursor := Some(s.pages[|s.pages| - 1].result.value.value.fields["continueCursor"].text);
                  s1.pages == s.pages + [Page(s.nextKey + 1, Some(PageQuery(s.userArgs, numItems, cursor, None,
                                                                           s.paginationId)), None, cursor, None)])
  {
    if LoadMore(s, numItems).1 {
      var last := s.pages[|s.pages| - 1];
      LoadMoreStarted(s, numItems);
      LastIsFinished(s);
      FinishedReads(last);
      ParsePageReads(last.result.value.value);
    }
  }

  lemma LastIsFinished(s: State)
    requires s.pages != [] && ComputeSnapshot(s).status.CanLoadMore?
    ensures Finished(s.pages[|s.pages| - 1])
  {
    FinishedReads(s.pages[|s.pages| - 1]);
  }

  /** A page without a result behind complete ones is where the list stops. */
  lemma {:induction false} CompleteThenLoading(pages: seq<Page>, p: Page)
    requires Included(pages) == |pages| && p.result.None?
    ensures Included(pages + [p]) == |pages|
  {
    if pages == [] {
      assert (pages + [p])[0] == p;
    } else {
      assert (pages + [p])[0] == pages[0] && (pages + [p])[1..] == pages[1..] + [p];
      CompleteThenLoading(pages[1..], p);
    }
  }
}
