/** What a page's result says, read off the value the server sent (include/convex/paginated.h). */
module PageReadings {
  import opened Wrappers
  import opened Values
  import opened PaginatedSpec

  /** A PaginationResult: a list of items, whether it is the last page, and where it ends. */
  predicate IsPage(v: Value) {
    && v.Object?
    && "page" in v.fields && v.fields["page"].Array?
    && "isDone" in v.fields && v.fields["isDone"].Boolean?
    && "continueCursor" in v.fields && v.fields["continueCursor"].Text?
  }

  predicate HasStatus(v: Value, status: string)
    requires v.Object?
  {
    "pageStatus" in v.fields && v.fields["pageStatus"] == Text(status)
  }

  predicate HasSplitPoint(v: Value)
    requires v.Object?
  {
    "splitCursor" in v.fields && v.fields["splitCursor"].Text?
  }

  /** parse_page reads exactly these fields. */
  lemma ParsePageReads(v: Value)
    ensures ParsePage(v).Some? <==> IsPage(v)
    ensures IsPage(v) ==>
              var f := ParsePage(v).value;
              && f.items == v.fields["page"].items && f.isDone == v.fields["isDone"].b
              && f.continueCursor == v.fields["continueCursor"].text
              && f.splitCursor == (if HasSplitPoint(v) then Some(v.fields["splitCursor"].text) else None)
              && f.splitRequired == HasStatus(v, "SplitRequired")
              && f.splitRecommended == HasStatus(v, "SplitRecommended")
  {
  }

  // ---- Pages ------------------------------------------------------------------

  /** A page that holds its whole range. */
  predicate Finished(p: Page) {
    && p.result.Some? && p.result.value.Success? && IsPage(p.result.value.value)
    && !HasStatus(p.result.value.value, "SplitRequired")
  }

  /** A page that failed, or holds something that is no page. */
  predicate Broken(p: Page) {
    p.result.Some? && !(p.result.value.Success? && IsPage(p.result.value.value))
  }

  /** A page that has not loaded, or must be split before it can be shown. */
  predicate Waiting(p: Page) {
    || p.result.None?
    || (p.result.value.Success? && IsPage(p.result.value.value) && HasStatus(p.result.value.value, "SplitRequired"))
  }

  function ItemsOf(p: Page): seq<Value>
    requires Finished(p)
  {
    p.result.value.value.fields["page"].items
  }

  predicate IsLast(p: Page)
    requires Finished(p)
  {
    p.result.value.value.fields["isDone"].b
  }

  lemma FinishedReads(p: Page)
    ensures Complete(p) <==> Finished(p)
    ensures Finished(p) ==> Loaded(p).value.items == ItemsOf(p) && Loaded(p).value.isDone == IsLast(p)
    ensures Broken(p) <==> p.result.Some? && Loaded(p).None?
  {
    if p.result.Some? && p.result.value.Success? { ParsePageReads(p.result.value.value); }
  }

  /** How many pages at the front are finished. */
  function FinishedPrefix(pages: seq<Page>): (n: nat)
    ensures n <= |pages| && (forall i :: 0 <= i < n ==> Finished(pages[i]))
    ensures n < |pages| ==> !Finished(pages[n])
  {
    if pages == [] || !Finished(pages[0]) then 0 else 1 + FinishedPrefix(pages[1..])
  }

  lemma PrefixReads(pages: seq<Page>)
    ensures Included(pages) == FinishedPrefix(pages)
  {
    forall i | 0 <= i < |pages|
      ensures Complete(pages[i]) <==> Finished(pages[i])
    {
      FinishedReads(pages[i]);
    }
    IncludedIs(pages, FinishedPrefix(pages));
  }

  /** All items of finished pages, page after page. */
  function AllItems(pages: seq<Page>): seq<Value>
    requires forall i :: 0 <= i < |pages| ==> Finished(pages[i])
  {
    if pages == [] then [] else ItemsOf(pages[0]) + AllItems(pages[1..])
  }

  lemma {:induction false} AllItemsSnoc(pages: seq<Page>, p: Page)
    requires (forall i :: 0 <= i < |pages| ==> Finished(pages[i])) && Finished(p)
    ensures AllItems(pages + [p]) == AllItems(pages) + ItemsOf(p)
  {
    if pages == [] {
      assert [p][1..] == [];
      assert AllItems([p]) == ItemsOf(p) + [];
    } else {
      assert (pages + [p])[1..] == pages[1..] + [p];
      AllItemsSnoc(pages[1..], p);
    }
  }

  lemma {:induction false} ItemsRead(pages: seq<Page>)
    requires forall i :: 0 <= i < |pages| ==> Finished(pages[i])
    ensures forall i :: 0 <= i < |pages| ==> Complete(pages[i])
    ensures Items(pages) == AllItems(pages)
  {
    if pages != [] {
      var init, last := pages[..|pages| - 1], pages[|pages| - 1];
      ItemsRead(init);
      FinishedReads(last);
      AllItemsSnoc(init, last);
      assert init + [last] == pages;
    }
  }

  // ---- Splits and invalid cursors -------------------------------------------------

  /** A page that can be split, and should: the server says so, or it has grown past twice the size asked for. */
  predicate ShouldSplit(v: Value, numItems: nat) {
    && IsPage(v) && HasSplitPoint(v)
    && (HasStatus(v, "SplitRequired") || HasStatus(v, "SplitRecommended") || |v.fields["page"].items| > 2 * numItems)
  }

  lemma ShouldSplitReads(v: Value, numItems: nat)
    ensures ShouldSplit(v, numItems) <==> ParsePage(v).Some? && WantsSplit(ParsePage(v).value, numItems)
  {
    ParsePageReads(v);
  }

  predicate StandsAt(text: string, i: int, part: string) {
    0 <= i && i + |part| <= |text| && text[i..i + |part|] == part
  }

  ghost predicate Mentions(text: string, part: string) { exists i :: StandsAt(text, i, part) }

  /** An error that names InvalidCursor in its message, or in the data of a Convex system error. */
  ghost predicate ReportsInvalidCursor(r: FunctionResult) {
    && !r.Success?
    && (|| Mentions(r.message, "InvalidCursor")
        || (&& r.AppError? && r.data.Object?
            && "isConvexSystemError" in r.data.fields && r.data.fields["isConvexSystemError"] == Boolean(true)
            && "paginationError" in r.data.fields && r.data.fields["paginationError"] == Text("InvalidCursor")))
  }

  lemma MentionsReads(text: string, part: string)
    ensures Contains(text, part) <==> Mentions(text, part)
  {
    if Contains(text, part) {
      var i :| 0 <= i <= |text| && part <= text[i..];
      assert StandsAt(text, i, part);
    }
    if Mentions(text, part) {
      var i :| StandsAt(text, i, part);
      assert text[i..][..|part|] == text[i..i + |part|];
    }
  }

  lemma InvalidCursorReads(r: FunctionResult)
    ensures IsInvalidCursor(r) <==> ReportsInvalidCursor(r)
  {
    if !r.Success? { MentionsReads(r.message, "InvalidCursor"); }
  }
}
