/** A server window and a client cursor over one ordered list. */
module Paging {
  import opened Division

  /** The cursor: how many rows a page asks for, and where it starts. */
  datatype PageState = PageState(limit: nat, offset: nat)

  function Least(a: nat, b: nat): nat { if a < b then a else b }

  /** `ORDER BY … LIMIT limit OFFSET offset`, and the count taken before the window. */
  function Paginate<T>(ordered: seq<T>, limit: nat, offset: nat): (window: (seq<T>, nat))
    ensures |window.0| <= limit && window.1 == |ordered|
  {
    var first := Least(offset, |ordered|);
    (ordered[first..Least(first + limit, |ordered|)], |ordered|)
  }

  /** The window is the rows from the offset on, as many as the limit allows, beside the full count. */
  lemma WindowIs<T>(ordered: seq<T>, limit: nat, offset: nat)
    ensures Paginate(ordered, limit, offset).1 == |ordered|
    ensures offset + limit <= |ordered| ==> Paginate(ordered, limit, offset).0 == ordered[offset..offset + limit]
    ensures offset <= |ordered| < offset + limit ==> Paginate(ordered, limit, offset).0 == ordered[offset..]
    ensures offset > |ordered| ==> Paginate(ordered, limit, offset).0 == []
  {}

  predicate HasPrevious(page: PageState) {
    page.offset > 0
  }

  predicate HasNext(page: PageState, shown: nat, total: nat) {
    page.offset + shown < total
  }

  function Next(page: PageState): PageState {
    page.(offset := page.offset + page.limit)
  }

  function Previous(page: PageState): PageState {
    page.(offset := if page.offset >= page.limit then page.offset - page.limit else 0)
  }

  function Resize(limit: nat): PageState {
    PageState(limit, 0)
  }

  /** What a reader sees pressing Next from here until it is disabled, page by page. */
  function Sweep<T>(ordered: seq<T>, page: PageState): seq<seq<T>>
    requires page.limit > 0
    decreases |ordered| - page.offset
  {
    var (rows, total) := Paginate(ordered, page.limit, page.offset);
    [rows] + (if HasNext(page, |rows|, total) then Sweep(ordered, Next(page)) else [])
  }

  function Concat<T>(pages: seq<seq<T>>): seq<T> {
    if |pages| == 0 then [] else pages[0] + Concat(pages[1..])
  }

  function Pages(total: nat, limit: nat): nat
    requires limit > 0
  {
    (total + limit - 1) / limit
  }

  /** From any page start the sweep shows the rest of the list, once and in order. */
  lemma {:induction false} SweepShowsTheRest<T>(ordered: seq<T>, page: PageState)
    requires page.limit > 0 && page.offset <= |ordered|
    ensures Concat(Sweep(ordered, page)) == ordered[page.offset..]
    decreases |ordered| - page.offset
  {
    var (rows, total) := Paginate(ordered, page.limit, page.offset);
    var sweep := Sweep(ordered, page);
    assert sweep[0] == rows;
    if HasNext(page, |rows|, total) {
      var next := Next(page);
      SweepShowsTheRest(ordered, next);
      assert sweep[1..] == Sweep(ordered, next);
      assert rows + ordered[next.offset..] == ordered[page.offset..];
    } else {
      assert sweep[1..] == [];
      assert rows == ordered[page.offset..];
    }
  }

  /** And takes as many pages as the rest of the list fills. */
  lemma {:induction false} SweepCount<T>(ordered: seq<T>, page: PageState)
    requires page.limit > 0 && page.offset < |ordered|
    ensures |Sweep(ordered, page)| == Pages(|ordered| - page.offset, page.limit)
    decreases |ordered| - page.offset
  {
    var (rows, total) := Paginate(ordered, page.limit, page.offset);
    if HasNext(page, |rows|, total) {
      SweepCount(ordered, Next(page));
      OnePageMore(|ordered| - page.offset, page.limit);
    } else {
      LastPage(|ordered| - page.offset, page.limit);
    }
  }

  lemma OnePageMore(left: nat, limit: nat)
    requires 0 < limit < left
    ensures Pages(left, limit) == Pages(left - limit, limit) + 1
  {
    AddOneDivisor(left - 1, limit);
  }

  lemma LastPage(left: nat, limit: nat)
    requires 0 < left <= limit
    ensures Pages(left, limit) == 1
  {
    QuotientUnique(left + limit - 1, limit, 1, left - 1);
  }

  /** From the first page the sweep is the whole list, in exactly as many pages as it takes. */
  lemma SweepShowsEverything<T>(ordered: seq<T>, limit: nat)
    requires limit > 0
    ensures Concat(Sweep(ordered, PageState(limit, 0))) == ordered
    ensures |ordered| > 0 ==> |Sweep(ordered, PageState(limit, 0))| == Pages(|ordered|, limit)
  {
    SweepShowsTheRest(ordered, PageState(limit, 0));
    if |ordered| > 0 { SweepCount(ordered, PageState(limit, 0)); }
  }

  // --- the cursor ------------------------------------------------------------

  datatype Press = PressNext | PressPrevious | Choose(limit: nat)

  /** Buttons act only while enabled; a page size is one of those offered, so never zero. */
  function Pressed<T>(ordered: seq<T>, page: PageState, press: Press): PageState {
    match press
    case PressNext =>
      var (rows, total) := Paginate(ordered, page.limit, page.offset);
      if HasNext(page, |rows|, total) then Next(page) else page
    case PressPrevious => if HasPrevious(page) then Previous(page) else page
    case Choose(limit) => if limit > 0 then Resize(limit) else page
  }

  /**
   * What each press leaves: Next moves on by a page while rows remain beyond those shown, Previous
   * moves back by one, never before the start, and another page size starts over.
   */
  lemma PressesMove<T>(ordered: seq<T>, page: PageState, size: nat)
    ensures Pressed(ordered, page, Choose(size)) == if size > 0 then PageState(size, 0) else page
    ensures page.offset <= |ordered| ==>
              Pressed(ordered, page, PressNext) ==
              if page.offset + page.limit < |ordered| then PageState(page.limit, page.offset + page.limit) else page
    ensures Pressed(ordered, page, PressPrevious) ==
            PageState(page.limit, if page.offset > page.limit then page.offset - page.limit else 0)
  {}

  function AfterPresses<T>(ordered: seq<T>, page: PageState, presses: seq<Press>): PageState {
    if |presses| == 0 then page
    else Pressed(ordered, AfterPresses(ordered, page, presses[..|presses| - 1]), presses[|presses| - 1])
  }

  /** The cursor sits at a whole number of pages, on a page that has rows wherever the list does. */
  ghost predicate OnGrid(page: PageState, total: nat) {
    && page.limit > 0
    && (page.offset < total || page.offset == 0)
    && exists k: nat :: AtPage(page, k)
  }

  predicate AtPage(page: PageState, k: nat) {
    page.offset == k * page.limit
  }

  lemma PressKeepsGrid<T>(ordered: seq<T>, page: PageState, press: Press)
    requires OnGrid(page, |ordered|)
    ensures OnGrid(Pressed(ordered, page, press), |ordered|)
  {
    var k: nat :| AtPage(page, k);
    var next := Pressed(ordered, page, press);
    match press {
      case PressNext =>
        if next != page {
          assert (k + 1) * page.limit == k * page.limit + page.limit;
          assert AtPage(next, k + 1);
        }
      case PressPrevious =>
        if next != page {
          assert k >= 1;
          assert (k - 1) * page.limit == k * page.limit - page.limit;
          assert AtPage(next, k - 1);
        }
      case Choose(limit) =>
        assert AtPage(next, if limit > 0 then 0 else k);
    }
  }

  /** However the buttons are pressed, no page is skipped into the middle of or left behind the end. */
  lemma {:induction false} CursorStaysOnGrid<T>(ordered: seq<T>, page: PageState, presses: seq<Press>)
    requires OnGrid(page, |ordered|)
    ensures OnGrid(AfterPresses(ordered, page, presses), |ordered|)
  {
    if |presses| > 0 {
      CursorStaysOnGrid(ordered, page, presses[..|presses| - 1]);
      PressKeepsGrid(ordered, AfterPresses(ordered, page, presses[..|presses| - 1]), presses[|presses| - 1]);
    }
  }

  /** Previous undoes Next, and on the grid Next undoes Previous, wherever each is enabled. */
  lemma PressesUndoEachOther<T>(ordered: seq<T>, page: PageState)
    requires OnGrid(page, |ordered|)
    ensures Pressed(ordered, page, PressNext) != page ==>
              Pressed(ordered, Pressed(ordered, page, PressNext), PressPrevious) == page
    ensures HasPrevious(page) ==>
              Pressed(ordered, Pressed(ordered, page, PressPrevious), PressNext) == page
  {
    var k: nat :| AtPage(page, k);
    if HasPrevious(page) {
      assert k >= 1;
      assert k * page.limit >= page.limit by { MulMonotone(1, k, page.limit); }
    }
  }
}
