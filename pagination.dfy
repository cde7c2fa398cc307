/**
 * The page strip of frontend/src/components/common/Pagination.jsx: the loop that
 * lists page numbers with '...' for the gaps, and the prev / next buttons.
 */
module Pagination {
  import opened Common

  /** One button of the strip: a page number or '...'. */
  datatype Entry = Num(n: int) | Ellipsis

  /** The strip as rendered: the two arrow buttons and the entries between them. */
  datatype Strip = Strip(prevDisabled: bool, prevTarget: int, entries: seq<Entry>,
                         nextDisabled: bool, nextTarget: int)

  /** Page i gets its own button: the first, the last, and the current page with its neighbours. */
  predicate Shown(i: int, page: int, totalPages: int)
  {
    i == 1 || i == totalPages || (page - 1 <= i && i <= page + 1)
  }

  /** The numbers listed are exactly the shown pages of 1..totalPages. */
  predicate ListsExactlyShown(entries: seq<Entry>, page: int, totalPages: int)
  {
    && (forall k :: 0 <= k < |entries| && entries[k].Num? ==>
          1 <= entries[k].n <= totalPages && Shown(entries[k].n, page, totalPages))
    && (forall i :: 1 <= i <= totalPages && Shown(i, page, totalPages) ==> Num(i) in entries)
  }

  /** Numbers rise strictly from left to right, so none repeats. */
  predicate Increasing(entries: seq<Entry>)
  {
    forall j, k :: 0 <= j < k < |entries| && entries[j].Num? && entries[k].Num? ==> entries[j].n < entries[k].n
  }

  /**
   * At position k: a '...' sits between two numbers and stands for the one or
   * more pages between them, none of which is shown.
   */
  predicate GapAt(entries: seq<Entry>, k: int, page: int, totalPages: int)
    requires 0 <= k < |entries|
  {
    entries[k] == Ellipsis ==>
      && 0 < k < |entries| - 1
      && entries[k - 1].Num? && entries[k + 1].Num?
      && entries[k + 1].n - entries[k - 1].n >= 2
      && forall i :: entries[k - 1].n < i < entries[k + 1].n ==> !Shown(i, page, totalPages)
  }

  /** At positions k and k+1: two numbers side by side are consecutive pages. */
  predicate StepAt(entries: seq<Entry>, k: int)
    requires 0 <= k < |entries| - 1
  {
    entries[k].Num? && entries[k + 1].Num? ==> entries[k + 1].n == entries[k].n + 1
  }

  /**
   * Every '...' marks a gap of omitted pages and every other pair of
   * neighbours is consecutive; in particular no two '...' are adjacent.
   */
  predicate EllipsesMarkGaps(entries: seq<Entry>, page: int, totalPages: int)
  {
    && (forall k :: 0 <= k < |entries| ==> GapAt(entries, k, page, totalPages))
    && (forall k :: 0 <= k < |entries| - 1 ==> StepAt(entries, k))
  }

  /**
   * The loop's view of EllipsesMarkGaps once pages 1..i-1 are processed: a
   * trailing '...' already stands for at least one omitted page, up to i-1.
   */
  predicate GapsSoFar(pages: seq<Entry>, i: int, page: int, totalPages: int)
  {
    && (forall k :: 0 <= k < |pages| - 1 ==> GapAt(pages, k, page, totalPages))
    && (pages != [] && pages[|pages| - 1] == Ellipsis ==>
          && |pages| >= 2 && pages[|pages| - 2].Num? && pages[|pages| - 2].n < i - 1
          && forall j :: pages[|pages| - 2].n < j < i ==> !Shown(j, page, totalPages))
  }

  /** Every number listed so far is a shown page below i. */
  predicate BoundedBelow(pages: seq<Entry>, i: int, page: int, totalPages: int)
  {
    forall k :: 0 <= k < |pages| && pages[k].Num? ==>
      1 <= pages[k].n < i && Shown(pages[k].n, page, totalPages)
  }

  /** Every shown page below i is listed. */
  predicate CoversBelow(pages: seq<Entry>, i: int, page: int, totalPages: int)
  {
    forall j :: 1 <= j < i && Shown(j, page, totalPages) ==> Num(j) in pages
  }

  /** Two neighbouring numbers so far are consecutive. */
  predicate StepsSoFar(pages: seq<Entry>)
  {
    forall k :: 0 <= k < |pages| - 1 ==> StepAt(pages, k)
  }

  /**
   * What the loop knows once pages 1..i-1 are processed: the entries so far
   * are the strip for those pages, ending with a number exactly when page i-1
   * was shown.
   */
  predicate Progress(pages: seq<Entry>, i: int, page: int, totalPages: int)
  {
    && 1 <= i
    && (i == 1 <==> pages == [])
    && (i > 1 ==> pages[0] == Num(1))
    && BoundedBelow(pages, i, page, totalPages)
    && CoversBelow(pages, i, page, totalPages)
    && Increasing(pages)
    && (pages != [] && pages[|pages| - 1].Num? ==> pages[|pages| - 1].n == i - 1)
    && StepsSoFar(pages)
    && GapsSoFar(pages, i, page, totalPages)
  }

  lemma BoundedSnoc(pages: seq<Entry>, e: Entry, i: int, page: int, totalPages: int)
    requires BoundedBelow(pages, i, page, totalPages) && 1 <= i
    requires e == Ellipsis || (e == Num(i) && Shown(i, page, totalPages))
    ensures BoundedBelow(pages + [e], i + 1, page, totalPages)
  {
    var q := pages + [e];
    forall k | 0 <= k < |q| && q[k].Num?
      ensures 1 <= q[k].n < i + 1 && Shown(q[k].n, page, totalPages)
    {
      if k < |pages| {
        assert q[k] == pages[k];
      }
    }
  }

  lemma CoversSnoc(pages: seq<Entry>, e: Entry, i: int, page: int, totalPages: int)
    requires CoversBelow(pages, i, page, totalPages)
    requires Shown(i, page, totalPages) ==> e == Num(i)
    ensures CoversBelow(pages + [e], i + 1, page, totalPages)
  {
    var q := pages + [e];
    forall j | 1 <= j < i + 1 && Shown(j, page, totalPages) ensures Num(j) in q {
      if j < i {
        assert Num(j) in pages;
      } else {
        assert q[|pages|] == Num(j);
      }
    }
  }

  lemma IncreasingSnoc(pages: seq<Entry>, e: Entry, i: int, page: int, totalPages: int)
    requires Increasing(pages) && BoundedBelow(pages, i, page, totalPages)
    requires e == Ellipsis || e == Num(i)
    ensures Increasing(pages + [e])
  {
    var q := pages + [e];
    forall j, k | 0 <= j < k < |q| && q[j].Num? && q[k].Num? ensures q[j].n < q[k].n {
      assert q[j] == pages[j];
      if k < |pages| {
        assert q[k] == pages[k];
      }
    }
  }

  /** The layout conditions after a shown page is appended as a number. */
  lemma LayoutAfterNum(pages: seq<Entry>, i: int, page: int, totalPages: int)
    requires pages != [] && pages[|pages| - 1].Num? ==> pages[|pages| - 1].n == i - 1
    requires StepsSoFar(pages) && GapsSoFar(pages, i, page, totalPages)
    ensures StepsSoFar(pages + [Num(i)]) && GapsSoFar(pages + [Num(i)], i + 1, page, totalPages)
  {
    var q := pages + [Num(i)];
    forall k | 0 <= k < |q| - 1 ensures GapAt(q, k, page, totalPages) && StepAt(q, k) {
      assert q[k] == pages[k];
      if k < |pages| - 1 {
        assert q[k + 1] == pages[k + 1];
        assert GapAt(pages, k, page, totalPages) && StepAt(pages, k);
      }
    }
  }

  /** The layout conditions after a skipped page opens a gap behind page i-1. */
  lemma LayoutAfterGap(pages: seq<Entry>, i: int, page: int, totalPages: int)
    requires pages != [] && pages[|pages| - 1] == Num(i - 1) && !Shown(i, page, totalPages)
    requires StepsSoFar(pages) && GapsSoFar(pages, i, page, totalPages)
    ensures StepsSoFar(pages + [Ellipsis]) && GapsSoFar(pages + [Ellipsis], i + 1, page, totalPages)
  {
    var q := pages + [Ellipsis];
    forall k | 0 <= k < |q| - 1 ensures GapAt(q, k, page, totalPages) && StepAt(q, k) {
      assert q[k] == pages[k];
      if k < |pages| - 1 {
        assert q[k + 1] == pages[k + 1];
        assert GapAt(pages, k, page, totalPages) && StepAt(pages, k);
      }
    }
    assert q[|q| - 2] == Num(i - 1);
  }

  /** A shown page is appended as a number. */
  lemma ShownStep(pages: seq<Entry>, i: int, page: int, totalPages: int)
    requires Progress(pages, i, page, totalPages) && Shown(i, page, totalPages)
    ensures Progress(pages + [Num(i)], i + 1, page, totalPages)
  {
    BoundedSnoc(pages, Num(i), i, page, totalPages);
    CoversSnoc(pages, Num(i), i, page, totalPages);
    IncreasingSnoc(pages, Num(i), i, page, totalPages);
    LayoutAfterNum(pages, i, page, totalPages);
  }

  /** The first page skipped after a number is appended as '...'. */
  lemma GapOpens(pages: seq<Entry>, i: int, page: int, totalPages: int)
    requires Progress(pages, i, page, totalPages) && !Shown(i, page, totalPages)
    requires pages == [] || pages[|pages| - 1] != Ellipsis
    ensures Progress(pages + [Ellipsis], i + 1, page, totalPages)
  {
    assert pages != [] by {
      assert Shown(1, page, totalPages);
    }
    assert pages[|pages| - 1] == Num(i - 1);
    BoundedSnoc(pages, Ellipsis, i, page, totalPages);
    CoversSnoc(pages, Ellipsis, i, page, totalPages);
    IncreasingSnoc(pages, Ellipsis, i, page, totalPages);
    LayoutAfterGap(pages, i, page, totalPages);
  }

  /** A page skipped right after '...' adds nothing. */
  lemma GapWidens(pages: seq<Entry>, i: int, page: int, totalPages: int)
    requires Progress(pages, i, page, totalPages) && !Shown(i, page, totalPages)
    requires pages != [] && pages[|pages| - 1] == Ellipsis
    ensures Progress(pages, i + 1, page, totalPages)
  {
  }

  /** After the last page, which is always shown, the strip is complete. */
  lemma Finished(pages: seq<Entry>, page: int, totalPages: int)
    requires totalPages >= 1 && Progress(pages, totalPages + 1, page, totalPages)
    ensures ListsExactlyShown(pages, page, totalPages)
    ensures Increasing(pages) && EllipsesMarkGaps(pages, page, totalPages)
    ensures pages != [] && pages[0] == Num(1) && pages[|pages| - 1] == Num(totalPages)
  {
    assert Num(totalPages) in pages by {
      assert Shown(totalPages, page, totalPages);
    }
    assert pages[|pages| - 1] == Num(totalPages);
    forall k | 0 <= k < |pages| ensures GapAt(pages, k, page, totalPages) {
      if k < |pages| - 1 {
        assert GapAt(pages, k, page, totalPages);
      }
    }
  }

  /** One pass of the loop: page i is appended as a number, opens a gap, or widens one. */
  function Step(pages: seq<Entry>, i: int, page: int, totalPages: int): seq<Entry>
  {
    if Shown(i, page, totalPages) then pages + [Num(i)]
    else if |pages| == 0 || pages[|pages| - 1] != Ellipsis then pages + [Ellipsis]
    else pages
  }

  lemma StepKeepsProgress(pages: seq<Entry>, i: int, page: int, totalPages: int)
    requires Progress(pages, i, page, totalPages)
    ensures Progress(Step(pages, i, page, totalPages), i + 1, page, totalPages)
  {
    if Shown(i, page, totalPages) {
      ShownStep(pages, i, page, totalPages);
    } else if |pages| == 0 || pages[|pages| - 1] != Ellipsis {
      GapOpens(pages, i, page, totalPages);
    } else {
      GapWidens(pages, i, page, totalPages);
    }
  }

  /** The loop over pages 1..totalPages that builds the entries. */
  method ListPages(page: int, totalPages: int) returns (pages: seq<Entry>)
    requires totalPages >= 1
    ensures Progress(pages, totalPages + 1, page, totalPages)
  {
    pages := [];
    for i := 1 to totalPages + 1
      invariant Progress(pages, i, page, totalPages)
    {
      StepKeepsProgress(pages, i, page, totalPages);
      pages := Step(pages, i, page, totalPages);
    }
  }

  /**
   * `Pagination({ page, totalPages })`: nothing for a single page; otherwise
   * the strip, with prev disabled on the first page and next on the last.
   */
  method Render(page: int, totalPages: int) returns (r: Option<Strip>)
    ensures r.None? <==> totalPages <= 1
    ensures r.Some? ==>
              && ListsExactlyShown(r.value.entries, page, totalPages)
              && Increasing(r.value.entries)
              && EllipsesMarkGaps(r.value.entries, page, totalPages)
              && r.value.entries != [] && r.value.entries[0] == Num(1)
              && r.value.entries[|r.value.entries| - 1] == Num(totalPages)
    ensures r.Some? ==>
              && r.value.prevDisabled == (page == 1) && r.value.prevTarget == page - 1
              && r.value.nextDisabled == (page == totalPages) && r.value.nextTarget == page + 1
  {
    if totalPages <= 1 {
      return None;
    }
    var pages := ListPages(page, totalPages);
    Finished(pages, page, totalPages);
    r := Some(Strip(page == 1, page - 1, pages, page == totalPages, page + 1));
  }
}
