/**
 * The sessions of a paginated query, read off its operations: which arguments and pagination id are current, when a
 * session starts over, when on_update is called, and what completing a split leads to.
 */
module PaginatedSessions {
  import opened Wrappers
  import opened Values
  import opened PaginatedSpec
  import opened PageReadings
  import opened PaginatedRuns
  import opened PaginatedSnapshots

  /** An active page or half has this key. */
  ghost predicate Known(s: State, key: PageKey) {
    || (exists i :: 0 <= i < |s.pages| && s.pages[i].key == key)
    || (exists j :: 0 <= j < |s.splits| && IsHalf(s.splits[j], key))
  }

  lemma KnownIsFound(s: State, key: PageKey)
    ensures Known(s, key) <==> !FindPlace(s, key).Nowhere?
  {
    if PageIndex(s.pages, key) < |s.pages| { assert s.pages[PageIndex(s.pages, key)].key == key; }
    if HalfIndex(s.splits, key) < |s.splits| { assert IsHalf(s.splits[HalfIndex(s.splits, key)], key); }
  }

  // ---- The session ------------------------------------------------------------

  datatype Session = Session(args: string, id: int, generation: nat, stopped: bool)

  ghost function NoteSession(l: Session, s: State, op: Op): Session {
    if l.stopped then l
    else
      match op
      case PageResult(gen, key, r, freshId) =>
        if gen == l.generation && Known(s, key) && ReportsInvalidCursor(r)
        then l.(id := freshId, generation := l.generation + 1) else l
      case SettingArgs(args, freshId) =>
        if args.None? || args.value == l.args then l
        else l.(args := args.value, id := freshId, generation := l.generation + 1)
      case Resetting(freshId) => l.(id := freshId, generation := l.generation + 1)
      case LoadingMore(_) => l
      case Stopping => l.(stopped := true)
  }

  ghost function SessionOf(start: State, ops: seq<Op>): Session {
    if ops == [] then Session(start.userArgs, start.paginationId, 0, false)
    else NoteSession(SessionOf(start, ops[..|ops| - 1]), Execute(start, ops[..|ops| - 1]), ops[|ops| - 1])
  }

  ghost predicate InSession(s: State, l: Session, start: State) {
    && s.userArgs == l.args && s.paginationId == l.id && s.generation == l.generation && s.stopped == l.stopped
    && s.udfPath == start.udfPath && s.initialNumItems == start.initialNumItems
  }

  lemma PageResultInSession(s: State, l: Session, start: State, gen: nat, key: PageKey, r: FunctionResult, freshId: int)
    requires InSession(s, l, start)
    ensures var op := PageResult(gen, key, r, freshId); InSession(Step(s, op), NoteSession(l, s, op), start)
  {
    hide ConsiderSplit, AdvanceSplit, IsInvalidCursor, ReportsInvalidCursor, ComputeSnapshot, Known, FindPlace;
    KnownIsFound(s, key);
    if !s.stopped && gen == s.generation && !FindPlace(s, key).Nowhere? {
      ResetsIff(s, key, r, freshId);
      InvalidCursorReads(r);
      if !IsInvalidCursor(r) { DeliverFrame(s, key, r, freshId); }
    }
  }

  lemma InSessionStep(s: State, l: Session, start: State, op: Op)
    requires InSession(s, l, start)
    ensures InSession(Step(s, op), NoteSession(l, s, op), start)
  {
    hide ComputeSnapshot, OnPageResult;
    match op
    case PageResult(gen, key, r, freshId) => PageResultInSession(s, l, start, gen, key, r, freshId);
    case _ =>
  }

  /**
   * Whatever the server sends, the arguments, the pagination id and the generation are those of the last argument
   * change, reset, or invalid cursor reported for a page of the session.
   */
  lemma {:induction false} SessionFollows(start: State, ops: seq<Op>)
    requires IsStart(start)
    ensures InSession(Execute(start, ops), SessionOf(start, ops), start)
  {
    if ops != [] {
      SessionFollows(start, ops[..|ops| - 1]);
      InSessionStep(Execute(start, ops[..|ops| - 1]), SessionOf(start, ops[..|ops| - 1]), start, ops[|ops| - 1]);
    }
  }

  // ---- When on_update is called ---------------------------------------------------

  /** The operations that do something. */
  ghost predicate Acts(s: State, op: Op) {
    && !s.stopped
    && match op
       case PageResult(gen, key, _, _) => gen == s.generation && Known(s, key)
       case LoadingMore(numItems) => numItems > 0 && ComputeSnapshot(s).status.CanLoadMore?
       case SettingArgs(args, _) => args.Some? && args.value != s.userArgs
       case Resetting(_) => true
       case Stopping => false
  }

  /** Each operation that does something, and no other, gives the listener the snapshot it leaves. */
  lemma PublishesIff(s: State, op: Op)
    requires Booked(s)
    ensures var s1 := Step(s, op);
            && s1.published == s.published + (if s.listening && Acts(s, op) then [ComputeSnapshot(s1)] else [])
            && (s1.listening <==> s.listening && !op.Stopping?)
  {
    hide ComputeSnapshot, Known, FindPlace, Deliver, Booked;
    assert s.published + [] == s.published;
    match op
    case PageResult(gen, key, r, freshId) =>
      KnownIsFound(s, key);
      if Acts(s, op) {
        DeliverKeepsPublished(s, key, r, freshId);
        DeliverKeepsListening(s, key, r, freshId);
        NotifyUpToDate(Deliver(s, key, r, freshId));
      }
    case LoadingMore(numItems) =>
      LoadMoreKeepsResults(s, numItems);
      if Acts(s, op) {
        NotifyUpToDate(AddPage(s, numItems, Some(Loaded(s.pages[|s.pages| - 1]).value.continueCursor)));
      }
    case SettingArgs(args, freshId) =>
      if Acts(s, op) { NotifyUpToDate(DoReset(s.(userArgs := args.value), freshId)); }
    case Resetting(freshId) => if Acts(s, op) { NotifyUpToDate(DoReset(s, freshId)); }
    case Stopping =>
  }

  lemma DeliverKeepsListening(s: State, key: PageKey, r: FunctionResult, freshId: int)
    requires !FindPlace(s, key).Nowhere?
    ensures Deliver(s, key, r, freshId).listening == s.listening
  {
    hide IsInvalidCursor, ConsiderSplit, AdvanceSplit;
    if !IsInvalidCursor(r) { DeliverFrame(s, key, r, freshId); }
  }

  // ---- What completing a split leads to ------------------------------------------------

  /** Considering a page that is not being split starts a split of it exactly if it should be split. */
  lemma ConsideredIff(s: State, i: nat)
    requires i < |s.pages| && PageIndex(s.pages, s.pages[i].key) == i && !IsSplitting(s.splits, s.pages[i].key)
    ensures var (s1, p) := (ConsiderSplit(s, s.pages[i].key), s.pages[i]);
            && s1.pages == s.pages && s1.initialNumItems == s.initialNumItems && s.splits <= s1.splits
            && (IsSplitting(s1.splits, p.key)
                <==> p.result.Some? && p.result.value.Success? && ShouldSplit(p.result.value.value, s.initialNumItems))
            && (forall key :: key != p.key ==> (IsSplitting(s1.splits, key) <==> IsSplitting(s.splits, key)))
  {
    var p := s.pages[i];
    if p.result.Some? && p.result.value.Success? {
      ShouldSplitReads(p.result.value.value, s.initialNumItems);
    }
    var f := Loaded(p);
    if f.Some? && WantsSplit(f.value, s.initialNumItems) {
      var halves := Halves(s, p, f.value.splitCursor.value, f.value.continueCursor);
      SplittingOneMore(s.splits, halves);
    }
  }

  lemma SplittingOneMore(splits: seq<PendingSplit>, more: PendingSplit)
    ensures forall key :: IsSplitting(splits + [more], key) <==> IsSplitting(splits, key) || key == more.original
  {
    forall key | IsSplitting(splits, key)
      ensures IsSplitting(splits + [more], key)
    {
      var i :| 0 <= i < |splits| && splits[i].original == key;
      assert (splits + [more])[i].original == key;
    }
    assert (splits + [more])[|splits|] == more;
  }

  lemma SplittingOneLess(s: State, index: nat)
    requires Booked(s) && index < |s.splits|
    ensures forall key :: IsSplitting(WithoutSplit(s, index).splits, key)
              <==> IsSplitting(s.splits, key) && key != s.splits[index].original
  {
    forall key
      ensures IsSplitting(WithoutSplit(s, index).splits, key)
              <==> IsSplitting(s.splits, key) && key != s.splits[index].original
    {
      RemovedOne(s.splits, index, key);
    }
  }

  lemma RemovedOne(splits: seq<PendingSplit>, index: nat, key: PageKey)
    requires index < |splits|
    requires forall i, j :: 0 <= i < j < |splits| ==> splits[i].original != splits[j].original
    ensures IsSplitting(splits[..index] + splits[index + 1..], key)
            <==> IsSplitting(splits, key) && key != splits[index].original
  {
    var rest := splits[..index] + splits[index + 1..];
    assert forall k :: 0 <= k < |rest| ==> rest[k] == splits[if k < index then k else k + 1];
    if IsSplitting(splits, key) && key != splits[index].original {
      var k :| 0 <= k < |splits| && splits[k].original == key;
      assert rest[if k < index then k else k - 1].original == key;
    }
  }

  lemma ActiveAt(s: State, i: nat)
    requires Booked(s) && i < |s.pages|
    ensures PageIndex(s.pages, s.pages[i].key) == i
  {
    var k := PageIndex(s.pages, s.pages[i].key);
    assert k <= i && s.pages[k].key == s.pages[i].key;
  }

  /** The pages are those the halves take part in; a half is being split exactly if its result asks for it. */
  ghost predicate SplitDone(s: State, s1: State, split: PendingSplit, f: Page, g: Page)
    requires f.result.Some? && f.result.value.Success? && g.result.Some? && g.result.value.Success?
  {
    var at := PageIndex(s.pages, split.original);
    && at < |s.pages| && s1.pages == s.pages[..at] + [f, g] + s.pages[at + 1..]
    && (IsSplitting(s1.splits, f.key) <==> ShouldSplit(f.result.value.value, s.initialNumItems))
    && (IsSplitting(s1.splits, g.key) <==> ShouldSplit(g.result.value.value, s.initialNumItems))
    && (forall key :: key != f.key && key != g.key ==>
          (IsSplitting(s1.splits, key) <==> IsSplitting(s.splits, key) && key != split.original))
  }

  lemma HalvesNotSplit(s: State, index: nat)
    requires Booked(s) && index < |s.splits|
    ensures !IsSplitting(s.splits, s.splits[index].first.key) && !IsSplitting(s.splits, s.splits[index].second.key)
  {
    forall k | 0 <= k < |s.splits|
      ensures s.splits[k].original != s.splits[index].first.key && s.splits[k].original != s.splits[index].second.key
    {
      var i := PageIndex(s.pages, s.splits[k].original);
      assert !IsHalf(s.splits[index], s.pages[i].key);
    }
  }

  lemma CompletedSplitDone(s: State, index: nat)
    requires Booked(s) && !s.stopped && index < |s.splits|
    requires !HalfFailed(s.splits[index]) && !HalfMissing(s.splits[index])
    ensures SplitDone(s, AdvanceSplit(s, index), s.splits[index], s.splits[index].first, s.splits[index].second)
  {
    hide ConsiderSplit, ShouldSplit, Booked, Spare;
    var split := s.splits[index];
    var rest, at := WithoutSplit(s, index), PageIndex(s.pages, split.original);
    WithoutSplitBooked(s, index);
    TakenSplitSpare(s, index);
    SpareIsActive(rest, at, split);
    SplittingOneLess(s, index);
    HalvesNotSplit(s, index);
    var swapped := SwapIn(rest, at, split);
    SwapBooked(rest, at, split);
    SwappedAt(s.pages, at, split.first, split.second, at);
    SwappedAt(s.pages, at, split.first, split.second, at + 1);
    ActiveAt(swapped, at);
    ActiveAt(swapped, at + 1);
    KeysApart(s, index);
    ConsideredIff(swapped, at);
    ConsideredIff(ConsiderSplit(swapped, split.first.key), at + 1);
  }

  lemma SpareIsActive(s: State, at: nat, split: PendingSplit)
    requires Spare(s, at, split)
    ensures at < |s.pages|
  {
  }

  lemma KeysApart(s: State, index: nat)
    requires Booked(s) && index < |s.splits|
    ensures s.splits[index].first.key != s.splits[index].second.key
  {
  }

  /** Storing a half's result changes that half only. */
  lemma HalfPut(s: State, key: PageKey, r: FunctionResult)
    requires Booked(s) && HalfIndex(s.splits, key) < |s.splits|
    ensures var (j, place) := (HalfIndex(s.splits, key), FindPlace(s, key));
            && !place.Nowhere? && PlaceOk(s, place)
            && var (s1, split) := (Put(s, place, At(s, place).(result := Some(r))), s.splits[j]);
            && s1 == s.(splits := s.splits[j := if split.first.key == key
                                                then split.(first := split.first.(result := Some(r)))
                                                else split.(second := split.second.(result := Some(r)))])
            && HalfIndex(s1.splits, key) == j && Booked(s1)
  {
    var j := HalfIndex(s.splits, key);
    HalfFound(s, j, key);
    var place := FindPlace(s, key);
    var p := At(s, place).(result := Some(r));
    var s1 := Put(s, place, p);
    assert forall i :: 0 <= i < |s.splits| ==> IsHalf(s.splits[i], key) == IsHalf(s1.splits[i], key);
    SameKeysSameHalf(s.splits, s1.splits, key);
    PutDiffers(s, place, p);
    OnlyResultsBooked(s, s1);
  }

  /**
   * The success that leaves both halves of a split loaded puts them in place of their page, and starts splits of
   * exactly those halves whose own results ask for it.
   */
  lemma SplitCompletes(s: State, key: PageKey, r: FunctionResult, freshId: int)
    requires Booked(s) && !s.stopped && r.Success? && HalfIndex(s.splits, key) < |s.splits|
    requires var split := s.splits[HalfIndex(s.splits, key)];
             var other := if split.first.key == key then split.second else split.first;
             other.result.Some? && other.result.value.Success?
    ensures var split := s.splits[HalfIndex(s.splits, key)];
            var s1 := OnPageResult(s, s.generation, key, r, freshId);
            if split.first.key == key then SplitDone(s, s1, split, split.first.(result := Some(r)), split.second)
            else SplitDone(s, s1, split, split.first, split.second.(result := Some(r)))
  {
    hide AdvanceSplit, Booked, ComputeSnapshot, FindPlace, HalfIndex, Put, At;
    var j, place := HalfIndex(s.splits, key), FindPlace(s, key);
    HalfPut(s, key, r);
    var s1 := Put(s, place, At(s, place).(result := Some(r)));
    CompletedSplitDone(s1, j);
    SameSplitting(s.splits, s1.splits);
  }

  lemma SameSplitting(a: seq<PendingSplit>, b: seq<PendingSplit>)
    requires |a| == |b| && forall j :: 0 <= j < |a| ==> a[j].original == b[j].original
    ensures forall key :: IsSplitting(a, key) <==> IsSplitting(b, key)
  {
    forall key
      ensures IsSplitting(a, key) <==> IsSplitting(b, key)
    {
      if IsSplitting(a, key) {
        var j :| 0 <= j < |a| && a[j].original == key;
        assert b[j].original == key;
      }
    }
  }
}
