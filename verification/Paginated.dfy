/** The paginated_query class (src/paginated.cpp), proved against PaginatedSpec. */
module Paginated {
  import opened Wrappers
  import opened Values
  import Spec = PaginatedSpec
  import opened PaginatedSpec

  class PaginatedQuery {
    const udfPath: string
    const initialNumItems: nat
    var userArgs: string
    var paginationId: int
    var generation: nat
    var stopped: bool
    var pages: seq<Page>
    var splits: seq<PendingSplit>
    var nextKey: PageKey
    var listening: bool
    ghost var published: seq<Snapshot>

    ghost function Model(): State
      reads this
    {
      State(udfPath, initialNumItems, userArgs, paginationId, generation, stopped, pages, splits, nextKey,
            listening, published)
    }

    /** What load_more's unchecked read of the last page relies on (kept: PaginatedRuns.BookkeepingHolds). */
    ghost predicate Valid()
      reads this
    {
      !stopped ==> pages != []
    }

    constructor (udfPath: string, initialNumItems: nat, userArgs: string, id: int, listening: bool)
      requires udfPath != "" && initialNumItems > 0
      ensures Model() == Spec.Start(udfPath, initialNumItems, userArgs, id, listening) && Valid()
    {
      this.udfPath, this.initialNumItems, this.userArgs := udfPath, initialNumItems, userArgs;
      paginationId, generation, stopped, pages, splits, nextKey := id, 0, false, [], [], 0;
      this.listening, published := listening, [];
      new;
      AddPage(initialNumItems, None);
    }

    method FindPage(key: PageKey) returns (place: Place)
      ensures place == FindPlace(Model(), key)
    {
      for i := 0 to |pages|
        invariant forall k :: 0 <= k < i ==> pages[k].key != key
      {
        if pages[i].key == key { return InPages(i); }
      }
      for j := 0 to |splits|
        invariant forall k :: 0 <= k < j ==> !IsHalf(splits[k], key)
      {
        if splits[j].first.key == key { return FirstHalf(j); }
        if splits[j].second.key == key { return SecondHalf(j); }
      }
      place := Nowhere;
    }

    method SplitOfHalf(key: PageKey) returns (index: Option<nat>)
      ensures var j := HalfIndex(splits, key); index == if j < |splits| then Some(j) else None
    {
      for j := 0 to |splits|
        invariant forall k :: 0 <= k < j ==> !IsHalf(splits[k], key)
      {
        if splits[j].first.key == key || splits[j].second.key == key { return Some(j); }
      }
      index := None;
    }

    method IsSplitting(key: PageKey) returns (found: bool)
      ensures found == Spec.IsSplitting(splits, key)
    {
      for j := 0 to |splits|
        invariant forall k :: 0 <= k < j ==> splits[k].original != key
      {
        if splits[j].original == key { return true; }
      }
      found := false;
    }

    /** Subscribes an already stored page to its own range. */
    method SubscribePage(place: Place, numItems: nat)
      requires PlaceOk(Model(), place)
      modifies this`pages, this`splits
      ensures Model() == Put(old(Model()), place, Subscribed(old(Model()), At(old(Model()), place), numItems))
    {
      match place
      case InPages(i) =>
        var p := pages[i];
        pages := pages[i := p.(sub := Some(PageQuery(userArgs, numItems, p.cursor, p.endCursor, paginationId)))];
      case FirstHalf(i) =>
        var p := splits[i].first;
        var q := p.(sub := Some(PageQuery(userArgs, numItems, p.cursor, p.endCursor, paginationId)));
        splits := splits[i := splits[i].(first := q)];
      case SecondHalf(i) =>
        var p := splits[i].second;
        var q := p.(sub := Some(PageQuery(userArgs, numItems, p.cursor, p.endCursor, paginationId)));
        splits := splits[i := splits[i].(second := q)];
    }

    method AddPage(numItems: nat, cursor: Option<string>)
      modifies this
      ensures Model() == Spec.AddPage(old(Model()), numItems, cursor)
    {
      nextKey := nextKey + 1;
      pages := pages + [Page(nextKey, None, None, cursor, None)];
      SubscribePage(InPages(|pages| - 1), numItems);
    }

    method DoReset(freshId: int)
      modifies this
      ensures Model() == Spec.DoReset(old(Model()), freshId)
    {
      generation := generation + 1;
      paginationId := freshId;
      splits, pages := [], [];
      AddPage(initialNumItems, None);
    }

    method StartSplit(p: Page, splitCursor: string, continueCursor: string)
      modifies this
      ensures Model() == Spec.StartSplit(old(Model()), p, splitCursor, continueCursor)
    {
      nextKey := nextKey + 1;
      var first := Page(nextKey, None, None, p.cursor, Some(splitCursor));
      nextKey := nextKey + 1;
      var second := Page(nextKey, None, None, Some(splitCursor), Some(continueCursor));
      splits := splits + [PendingSplit(p.key, first, second)];
      SubscribePage(FirstHalf(|splits| - 1), initialNumItems);
      SubscribePage(SecondHalf(|splits| - 1), initialNumItems);
    }

    method ConsiderSplit(key: PageKey)
      modifies this
      ensures Model() == Spec.ConsiderSplit(old(Model()), key)
    {
      var place := FindPage(key);
      if place.Nowhere? { return; }
      var p := if place.InPages? then pages[place.i]
               else if place.FirstHalf? then splits[place.i].first else splits[place.i].second;
      if p.result.None? || !p.result.value.Success? { return; }
      var splitting := IsSplitting(key);
      if splitting { return; }
      var f := ParsePage(p.result.value.value);
      if f.None? { return; }
      if f.value.splitCursor.None? { return; }
      if f.value.splitRequired || f.value.splitRecommended || |f.value.items| > initialNumItems * 2 {
        StartSplit(p, f.value.splitCursor.value, f.value.continueCursor);
      }
    }

    method FindOriginal(key: PageKey) returns (at: nat)
      ensures at == PageIndex(pages, key)
    {
      for i := 0 to |pages|
        invariant forall k :: 0 <= k < i ==> pages[k].key != key
      {
        if pages[i].key == key { return i; }
      }
      at := |pages|;
    }

    method AdvanceSplit(index: nat)
      requires index < |splits|
      modifies this
      ensures Model() == Spec.AdvanceSplit(old(Model()), index)
    {
      hide Spec.ConsiderSplit;
      var split := splits[index];
      if (split.first.result.Some? && !split.first.result.value.Success?)
         || (split.second.result.Some? && !split.second.result.value.Success?) {
        splits := splits[..index] + splits[index + 1..];
        return;
      }
      if split.first.result.None? || split.second.result.None? { return; }
      splits := splits[..index] + splits[index + 1..];
      var at := FindOriginal(split.original);
      if at == |pages| { return; }
      pages := pages[..at] + [split.first, split.second] + pages[at + 1..];
      ConsiderSplit(split.first.key);
      ConsiderSplit(split.second.key);
    }

    method StoreResult(place: Place, r: FunctionResult)
      requires PlaceOk(Model(), place)
      modifies this`pages, this`splits
      ensures Model() == Put(old(Model()), place, At(old(Model()), place).(result := Some(r)))
    {
      match place
      case InPages(i) => pages := pages[i := pages[i].(result := Some(r))];
      case FirstHalf(i) => splits := splits[i := splits[i].(first := splits[i].first.(result := Some(r)))];
      case SecondHalf(i) => splits := splits[i := splits[i].(second := splits[i].second.(result := Some(r)))];
    }

    /** A page's result has arrived, addressed by generation and key. */
    method OnPageResult(gen: nat, key: PageKey, r: FunctionResult, freshId: int)
      modifies this
      ensures Model() == Spec.OnPageResult(old(Model()), gen, key, r, freshId)
    {
      if stopped || gen != generation { return; }
      var place := FindPage(key);
      if place.Nowhere? { return; }
      HandleResult(place, key, r, freshId);
      Publish();
    }

    /** What a stored result sets in motion: a reset, the progress of its split, or a split of its page. */
    method HandleResult(place: Place, key: PageKey, r: FunctionResult, freshId: int)
      requires place == FindPlace(Model(), key) && !place.Nowhere?
      modifies this
      ensures Model() == Spec.Deliver(old(Model()), key, r, freshId)
    {
      StoreResult(place, r);
      if IsInvalidCursor(r) {
        DoReset(freshId);
      } else {
        var index := SplitOfHalf(key);
        if index.Some? {
          AdvanceSplit(index.value);
        } else {
          ConsiderSplit(key);
        }
      }
    }

    /** notify(). */
    method Publish()
      modifies this`published
      ensures Model() == Notify(old(Model()))
    {
      if !listening { return; }
      var snap := ComputeSnapshot();
      published := published + [snap];
    }

    method ComputeSnapshot() returns (snap: Snapshot)
      ensures snap == Spec.ComputeSnapshot(Model())
    {
      var results: seq<Value> := [];
      var lastIsDone := false;
      for i := 0 to |pages|
        invariant forall k :: 0 <= k < i ==> Complete(pages[k])
        invariant results == Items(pages[..i])
        invariant lastIsDone == (i > 0 && Loaded(pages[i - 1]).value.isDone)
      {
        var p := pages[i];
        if !Complete(p) { IncludedIs(pages, i); }
        if p.result.None? {
          return Snapshot(results, if results == [] then LoadingFirstPage else LoadingMore, None);
        }
        if !p.result.value.Success? { return Snapshot(results, Failed, p.result); }
        var f := ParsePage(p.result.value.value);
        if f.None? { return Snapshot(results, Failed, Some(NotAPage(udfPath))); }
        if f.value.splitRequired {
          return Snapshot(results, if results == [] then LoadingFirstPage else LoadingMore, None);
        }
        ItemsNext(pages, i);
        results := results + f.value.items;
        lastIsDone := f.value.isDone;
      }
      IncludedIs(pages, |pages|);
      snap := Snapshot(results, if lastIsDone then Exhausted else CanLoadMore, None);
    }

    method LoadMore(numItems: nat) returns (started: bool)
      requires Valid()
      modifies this
      ensures (Model(), started) == Spec.LoadMore(old(Model()), numItems)
    {
      if numItems == 0 { return false; }
      if stopped { return false; }
      var snap := ComputeSnapshot();
      if snap.status != CanLoadMore { return false; }
      var last := ParsePage(pages[|pages| - 1].result.value.value);
      AddPage(numItems, Some(last.value.continueCursor));
      Publish();
      started := true;
    }

    method SetArgs(args: Option<string>, freshId: int) returns (changed: bool)
      modifies this
      ensures (Model(), changed) == Spec.SetArgs(old(Model()), args, freshId)
    {
      if stopped { return false; }
      if args.None? || args.value == userArgs { return false; }
      userArgs := args.value;
      DoReset(freshId);
      Publish();
      changed := true;
    }

    method Reset(freshId: int)
      modifies this
      ensures Model() == Spec.Reset(old(Model()), freshId)
    {
      if stopped { return; }
      DoReset(freshId);
      Publish();
    }

    method Stop()
      modifies this
      ensures Model() == Spec.Stop(old(Model()))
    {
      stopped := true;
      listening := false;
      splits, pages := [], [];
    }
  }
}
