/** What each paginated_query operation does to the page list (src/paginated.cpp), as functions. */
module PaginatedSpec {
  import opened Wrappers
  import opened Values

  type PageKey = nat

  // ---- Reading a page result --------------------------------------------

  datatype PageFields = PageFields(
    items: seq<Value>, isDone: bool, continueCursor: string,
    splitCursor: Option<string>, splitRequired: bool, splitRecommended: bool)

  function ParsePage(v: Value): Option<PageFields> {
    if !v.Object? then None
    else if !("page" in v.fields && v.fields["page"].Array?) then None
    else if !("isDone" in v.fields && v.fields["isDone"].Boolean?) then None
    else if !("continueCursor" in v.fields && v.fields["continueCursor"].Text?) then None
    else
      var split :=
        if "splitCursor" in v.fields && v.fields["splitCursor"].Text? then Some(v.fields["splitCursor"].text) else None;
      var status :=
        if "pageStatus" in v.fields && v.fields["pageStatus"].Text? then v.fields["pageStatus"].text else "";
      Some(PageFields(v.fields["page"].items, v.fields["isDone"].b, v.fields["continueCursor"].text,
                      split, status == "SplitRequired", status == "SplitRecommended"))
  }

  predicate Contains(text: string, part: string) {
    exists i :: 0 <= i <= |text| && part <= text[i..]
  }

  predicate IsInvalidCursor(r: FunctionResult) {
    match r
    case Success(_) => false
    case PlainError(message) => Contains(message, "InvalidCursor")
    case AppError(message, data) =>
      || Contains(message, "InvalidCursor")
      || (data.Object?
          && "isConvexSystemError" in data.fields && data.fields["isConvexSystemError"] == Boolean(true)
          && "paginationError" in data.fields && data.fields["paginationError"] == Text("InvalidCursor"))
  }

  // ---- Data model ---------------------------------------------------------

  /** The arguments a page's query is subscribed with: the user's, and the paginationOpts injected into them. */
  datatype PageQuery = PageQuery(
    args: string, numItems: nat, cursor: Option<string>, endCursor: Option<string>, id: int)

  datatype Page = Page(
    key: PageKey, sub: Option<PageQuery>, result: Option<FunctionResult>,
    cursor: Option<string>, endCursor: Option<string>)

  datatype PendingSplit = PendingSplit(original: PageKey, first: Page, second: Page)

  datatype State = State(
    udfPath: string,
    initialNumItems: nat,
    userArgs: string,
    paginationId: int,
    generation: nat,
    stopped: bool,
    pages: seq<Page>,
    splits: seq<PendingSplit>,
    nextKey: PageKey,
    listening: bool,                 // on_update is set
    published: seq<Snapshot>)        // what on_update has been given

  datatype Status = LoadingFirstPage | CanLoadMore | LoadingMore | Exhausted | Failed

  datatype Snapshot = Snapshot(results: seq<Value>, status: Status, error: Option<FunctionResult>)

  /** Where find_page finds a key. */
  datatype Place = InPages(i: nat) | FirstHalf(i: nat) | SecondHalf(i: nat) | Nowhere

  // ---- Lookups --------------------------------------------------------------

  function PageIndex(pages: seq<Page>, key: PageKey): (k: nat)
    ensures k <= |pages|
    ensures k < |pages| ==> pages[k].key == key
    ensures forall i :: 0 <= i < k ==> pages[i].key != key
  {
    if pages == [] || pages[0].key == key then 0 else 1 + PageIndex(pages[1..], key)
  }

  predicate IsHalf(split: PendingSplit, key: PageKey) { split.first.key == key || split.second.key == key }

  function HalfIndex(splits: seq<PendingSplit>, key: PageKey): (k: nat)
    ensures k <= |splits|
    ensures k < |splits| ==> IsHalf(splits[k], key)
    ensures forall i :: 0 <= i < k ==> !IsHalf(splits[i], key)
  {
    if splits == [] || IsHalf(splits[0], key) then 0 else 1 + HalfIndex(splits[1..], key)
  }

  function FindPlace(s: State, key: PageKey): Place {
    var i, j := PageIndex(s.pages, key), HalfIndex(s.splits, key);
    if i < |s.pages| then InPages(i)
    else if j < |s.splits| then (if s.splits[j].first.key == key then FirstHalf(j) else SecondHalf(j))
    else Nowhere
  }

  predicate PlaceOk(s: State, place: Place) {
    match place
    case InPages(i) => i < |s.pages|
    case FirstHalf(i) => i < |s.splits|
    case SecondHalf(i) => i < |s.splits|
    case Nowhere => false
  }

  function At(s: State, place: Place): Page
    requires PlaceOk(s, place)
  {
    match place
    case InPages(i) => s.pages[i]
    case FirstHalf(i) => s.splits[i].first
    case SecondHalf(i) => s.splits[i].second
  }

  /** Assigning to the page find_page found. */
  function Put(s: State, place: Place, p: Page): State
    requires PlaceOk(s, place)
  {
    match place
    case InPages(i) => s.(pages := s.pages[i := p])
    case FirstHalf(i) => s.(splits := s.splits[i := s.splits[i].(first := p)])
    case SecondHalf(i) => s.(splits := s.splits[i := s.splits[i].(second := p)])
  }

  predicate IsSplitting(splits: seq<PendingSplit>, key: PageKey) {
    exists i :: 0 <= i < |splits| && splits[i].original == key
  }

  // ---- Operations -------------------------------------------------------

  function Subscribed(s: State, p: Page, numItems: nat): Page {
    p.(sub := Some(PageQuery(s.userArgs, numItems, p.cursor, p.endCursor, s.paginationId)))
  }

  function AddPage(s: State, numItems: nat, cursor: Option<string>): State {
    var key := s.nextKey + 1;
    s.(nextKey := key, pages := s.pages + [Subscribed(s, Page(key, None, None, cursor, None), numItems)])
  }

  function DoReset(s: State, freshId: int): State {
    AddPage(s.(generation := s.generation + 1, paginationId := freshId, splits := [], pages := []),
            s.initialNumItems, None)
  }

  /** The two halves of a split of `p`: (p.cursor, splitCursor] and (splitCursor, continueCursor]. */
  function Halves(s: State, p: Page, splitCursor: string, continueCursor: string): PendingSplit {
    PendingSplit(
      p.key,
      Subscribed(s, Page(s.nextKey + 1, None, None, p.cursor, Some(splitCursor)), s.initialNumItems),
      Subscribed(s, Page(s.nextKey + 2, None, None, Some(splitCursor), Some(continueCursor)), s.initialNumItems))
  }

  function StartSplit(s: State, p: Page, splitCursor: string, continueCursor: string): State {
    s.(nextKey := s.nextKey + 2, splits := s.splits + [Halves(s, p, splitCursor, continueCursor)])
  }

  /** The fields of a page that loaded successfully. */
  function Loaded(p: Page): Option<PageFields> {
    if p.result.Some? && p.result.value.Success? then ParsePage(p.result.value.value) else None
  }

  predicate WantsSplit(f: PageFields, initialNumItems: nat) {
    f.splitCursor.Some? && (f.splitRequired || f.splitRecommended || |f.items| > initialNumItems * 2)
  }

  function ConsiderSplit(s: State, key: PageKey): State {
    var place := FindPlace(s, key);
    if place.Nowhere? then s
    else
      var p := At(s, place);
      var f := Loaded(p);
      if f.None? || IsSplitting(s.splits, key) || !WantsSplit(f.value, s.initialNumItems) then s
      else StartSplit(s, p, f.value.splitCursor.value, f.value.continueCursor)
  }

  predicate HalfFailed(split: PendingSplit) {
    || (split.first.result.Some? && !split.first.result.value.Success?)
    || (split.second.result.Some? && !split.second.result.value.Success?)
  }

  predicate HalfMissing(split: PendingSplit) { split.first.result.None? || split.second.result.None? }

  function WithoutSplit(s: State, index: nat): State
    requires index < |s.splits|
  {
    s.(splits := s.splits[..index] + s.splits[index + 1..])
  }

  function Swapped(pages: seq<Page>, at: nat, f: Page, g: Page): seq<Page>
    requires at < |pages|
  {
    pages[..at] + [f, g] + pages[at + 1..]
  }

  /** Both halves take the place of the page they replace. */
  function SwapIn(s: State, at: nat, split: PendingSplit): State
    requires at < |s.pages|
  {
    s.(pages := Swapped(s.pages, at, split.first, split.second))
  }

  function AdvanceSplit(s: State, index: nat): State
    requires index < |s.splits|
  {
    var split := s.splits[index];
    var at := PageIndex(s.pages, split.original);
    if HalfFailed(split) then WithoutSplit(s, index)
    else if HalfMissing(split) then s
    else if at == |s.pages| then WithoutSplit(s, index)
    else
      var swapped := SwapIn(WithoutSplit(s, index), at, split);
      ConsiderSplit(ConsiderSplit(swapped, split.first.key), split.second.key)
  }

  function Deliver(s: State, key: PageKey, r: FunctionResult, freshId: int): State
    requires !FindPlace(s, key).Nowhere?
  {
    var place := FindPlace(s, key);
    var s1 := Put(s, place, At(s, place).(result := Some(r)));
    var index := HalfIndex(s1.splits, key);
    if IsInvalidCursor(r) then DoReset(s1, freshId)
    else if index < |s1.splits| then AdvanceSplit(s1, index)
    else ConsiderSplit(s1, key)
  }

  // ---- Snapshot -----------------------------------------------------------

  /** A page whose result covers its whole range. */
  predicate Complete(p: Page) {
    Loaded(p).Some? && !Loaded(p).value.splitRequired
  }

  /** How many leading pages are complete. */
  function Included(pages: seq<Page>): (n: nat)
    ensures n <= |pages|
    ensures forall i :: 0 <= i < n ==> Complete(pages[i])
    ensures n < |pages| ==> !Complete(pages[n])
  {
    if pages == [] || !Complete(pages[0]) then 0 else 1 + Included(pages[1..])
  }

  lemma {:induction false} IncludedIs(pages: seq<Page>, n: nat)
    requires n <= |pages| && (forall i :: 0 <= i < n ==> Complete(pages[i])) && (n < |pages| ==> !Complete(pages[n]))
    ensures Included(pages) == n
  {
    if n > 0 {
      assert forall i :: 0 <= i < n - 1 ==> pages[1..][i] == pages[i + 1];
      IncludedIs(pages[1..], n - 1);
    }
  }

  function Items(pages: seq<Page>): seq<Value>
    requires forall i :: 0 <= i < |pages| ==> Complete(pages[i])
  {
    if pages == [] then []
    else
      var last := pages[|pages| - 1];
      assert Complete(last);
      Items(pages[..|pages| - 1]) + Loaded(last).value.items
  }

  lemma ItemsNext(pages: seq<Page>, n: nat)
    requires n < |pages| && forall i :: 0 <= i <= n ==> Complete(pages[i])
    ensures Items(pages[..n + 1]) == Items(pages[..n]) + Loaded(pages[n]).value.items
  {
    assert pages[..n + 1][..n] == pages[..n];
  }

  function NotAPage(udfPath: string): FunctionResult {
    PlainError("convex: paginated query \"" + udfPath + "\" returned a value that is not a PaginationResult")
  }

  /** Why the page that stops the list is not included: still loading, incomplete, or failed. */
  function StopError(udfPath: string, p: Page): Option<FunctionResult> {
    if p.result.None? then None
    else if !p.result.value.Success? then p.result
    else if Loaded(p).None? then Some(NotAPage(udfPath))
    else None
  }

  function ComputeSnapshot(s: State): Snapshot {
    var n := Included(s.pages);
    var results := Items(s.pages[..n]);
    if n == |s.pages| then
      var done := n > 0 && Loaded(s.pages[n - 1]).value.isDone;
      Snapshot(results, if done then Exhausted else CanLoadMore, None)
    else
      var error := StopError(s.udfPath, s.pages[n]);
      if error.Some? then Snapshot(results, Failed, error)
      else Snapshot(results, if results == [] then LoadingFirstPage else LoadingMore, None)
  }

  /** notify(): on_update, if set, is given the snapshot as it now is. */
  function Notify(s: State): State {
    if s.listening then s.(published := s.published + [ComputeSnapshot(s)]) else s
  }

  // ---- Page callbacks and public operations ------------------------------

  function OnPageResult(s: State, gen: nat, key: PageKey, r: FunctionResult, freshId: int): State {
    if s.stopped || gen != s.generation || FindPlace(s, key).Nowhere? then s
    else Notify(Deliver(s, key, r, freshId))
  }

  function Blank(udfPath: string, initialNumItems: nat, userArgs: string, id: int, listening: bool): State {
    State(udfPath, initialNumItems, userArgs, id, 0, false, [], [], 0, listening, [])
  }

  function Start(udfPath: string, initialNumItems: nat, userArgs: string, id: int, listening: bool): State {
    AddPage(Blank(udfPath, initialNumItems, userArgs, id, listening), initialNumItems, None)
  }

  /** The empty-list test is not in the source; PaginatedRuns shows the list is never empty before stop. */
  function LoadMore(s: State, numItems: nat): (State, bool) {
    if numItems == 0 || s.stopped || s.pages == [] || !ComputeSnapshot(s).status.CanLoadMore? then (s, false)
    else (Notify(AddPage(s, numItems, Some(Loaded(s.pages[|s.pages| - 1]).value.continueCursor))), true)
  }

  /** `args` is the serialized argument text, or None when serialize_args throws. */
  function SetArgs(s: State, args: Option<string>, freshId: int): (State, bool) {
    if s.stopped || args.None? || args.value == s.userArgs then (s, false)
    else (Notify(DoReset(s.(userArgs := args.value), freshId)), true)
  }

  function Reset(s: State, freshId: int): State {
    if s.stopped then s else Notify(DoReset(s, freshId))
  }

  function Stop(s: State): State { s.(stopped := true, listening := false, splits := [], pages := []) }
}
