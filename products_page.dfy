/** The catalogue page's pagination: twelve products per page, the slice
    shown for the current page, previous / next clamped to the page range,
    and the compact list of page links (first, last, and the neighbours of
    the current page) with an ellipsis wherever pages are skipped. */
module ProductsPage {
  import opened Common

  const ProductsPerPage: int := 12
  /** The page lists a fixed catalogue of 48 sample products. */
  const ProductCount: int := 48

  /** `Math.ceil(n / productsPerPage)`. */
  function TotalPages(n: nat): (t: nat)
    ensures t * ProductsPerPage >= n
    ensures t > 0 ==> (t - 1) * ProductsPerPage < n
    ensures t == 0 <==> n == 0
  {
    (n + ProductsPerPage - 1) / ProductsPerPage
  }

  /** `(currentPage - 1) * productsPerPage`. */
  function StartIndex(page: int): int {
    (page - 1) * ProductsPerPage
  }

  /** The products the current page shows. */
  function CurrentProducts<T>(all: seq<T>, page: int): (r: seq<T>)
    ensures page >= 1 ==> |r| <= ProductsPerPage
  {
    Slice(all, StartIndex(page), StartIndex(page) + ProductsPerPage)
  }

  /** Page `p` shows the items from `(p-1)*12` up to `p*12`, clipped to the list. */
  lemma PageContents<T>(all: seq<T>, page: int)
    requires page >= 1
    ensures var lo, hi := Min(StartIndex(page), |all|), Min(StartIndex(page) + ProductsPerPage, |all|);
      CurrentProducts(all, page) == all[lo..hi]
  {
  }

  /** The pages `1..k` in order. */
  function Pages<T>(all: seq<T>, k: nat): seq<T> {
    if k == 0 then [] else Pages(all, k - 1) + CurrentProducts(all, k)
  }

  /** The first `k` pages are the first `12 k` products. */
  lemma {:induction false} PagesArePrefix<T>(all: seq<T>, k: nat)
    ensures Pages(all, k) == all[..Min(k * ProductsPerPage, |all|)]
  {
    if k > 0 {
      PagesArePrefix(all, k - 1);
      PageContents(all, k);
      var lo, hi := Min((k - 1) * ProductsPerPage, |all|), Min(k * ProductsPerPage, |all|);
      assert all[..lo] + all[lo..hi] == all[..hi];
    }
  }

  /** Shown one after the other, the pages list every product exactly once, in order. */
  lemma PagesCoverCatalogue<T>(all: seq<T>)
    ensures Pages(all, TotalPages(|all|)) == all
  {
    PagesArePrefix(all, TotalPages(|all|));
    assert all[..|all|] == all;
  }

  /** The previous button: `Math.max(1, prev - 1)`. */
  function PreviousPage(page: int): (r: int)
    ensures r >= 1
    ensures page > 1 ==> r == page - 1
    ensures page <= 1 ==> r == 1
  {
    Max(1, page - 1)
  }

  /** The next button: `Math.min(totalPages, prev + 1)`. */
  function NextPage(page: int, totalPages: int): (r: int)
    ensures r <= totalPages
    ensures page < totalPages ==> r == page + 1
    ensures page >= totalPages ==> r == totalPages
  {
    Min(totalPages, page + 1)
  }

  /** Both buttons keep a page of the range inside the range. */
  lemma NavigationInRange(page: int, totalPages: int)
    requires 1 <= page <= totalPages
    ensures 1 <= PreviousPage(page) <= totalPages
    ensures 1 <= NextPage(page, totalPages) <= totalPages
  {
  }

  /** On an empty catalogue there are no pages and next would go to page 0. */
  lemma EmptyCatalogueNext()
    ensures TotalPages(0) == 0 && NextPage(1, TotalPages(0)) == 0
  {
  }

  function Abs(x: int): int {
    if x < 0 then -x else x
  }

  /** `Array.from({ length: totalPages }, (_, i) => i + 1)`. */
  function PageNumbers(totalPages: nat): (r: seq<int>)
    ensures |r| == totalPages
    ensures forall i | 0 <= i < |r| :: r[i] == i + 1
  {
    seq(totalPages, i requires 0 <= i < totalPages => i + 1)
  }

  /** Which page links are shown. */
  predicate ShowsPage(page: int, totalPages: int, current: int) {
    page == 1 || page == totalPages || Abs(page - current) <= 1
  }

  /** The `filter` over the page numbers. */
  function VisiblePages(totalPages: nat, current: int): seq<int> {
    Filter(PageNumbers(totalPages), (page: int) => ShowsPage(page, totalPages, current))
  }

  /** A page is listed exactly when it is in range and is the first page,
      the last page or within one of the current page. */
  lemma VisibleMembership(totalPages: nat, current: int, page: int)
    ensures page in VisiblePages(totalPages, current) <==>
      1 <= page <= totalPages && (page == 1 || page == totalPages || Abs(page - current) <= 1)
  {
    FilterMembership(PageNumbers(totalPages), (p: int) => ShowsPage(p, totalPages, current), page);
    if 1 <= page <= totalPages {
      assert PageNumbers(totalPages)[page - 1] == page;
    }
  }

  /** The links are listed in strictly increasing order. */
  lemma VisibleIncreasing(totalPages: nat, current: int)
    ensures var v := VisiblePages(totalPages, current);
      forall i, j | 0 <= i < j < |v| :: v[i] < v[j]
  {
    var idx := FilterEmbedding(PageNumbers(totalPages), (p: int) => ShowsPage(p, totalPages, current));
  }

  /** `index > 0 && array[index - 1] !== page - 1`. */
  predicate EllipsisBefore(visible: seq<int>, index: int)
    requires 0 <= index < |visible|
  {
    index > 0 && visible[index - 1] != visible[index] - 1
  }

  /** An ellipsis precedes a link exactly when some page between it and
      the previous link is not listed. */
  lemma EllipsisMarksGap(totalPages: nat, current: int, index: int)
    requires 0 <= index < |VisiblePages(totalPages, current)|
    ensures var v := VisiblePages(totalPages, current);
      EllipsisBefore(v, index) <==>
        index > 0 && exists q | v[index - 1] < q < v[index] :: q !in v
  {
    var v := VisiblePages(totalPages, current);
    VisibleIncreasing(totalPages, current);
    if index > 0 {
      if EllipsisBefore(v, index) {
        var q := v[index - 1] + 1;
        assert q < v[index];
        assert q !in v;
      } else {
        assert v[index - 1] == v[index] - 1;
      }
    }
  }

  /** On the 4-page catalogue, from page 1 the links are 1, 2 and 4, with an
      ellipsis only before 4. */
  lemma FirstPageLinks()
    ensures VisiblePages(TotalPages(ProductCount), 1) == [1, 2, 4]
    ensures !EllipsisBefore([1, 2, 4], 1) && EllipsisBefore([1, 2, 4], 2)
  {
    assert TotalPages(ProductCount) == 4;
    var nums := PageNumbers(4);
    assert nums == [1, 2, 3, 4];
    var keep := (page: int) => ShowsPage(page, 4, 1);
    assert Filter([1], keep) == [1] by {
      assert [1][..0] == [];
    }
    assert Filter([1, 2], keep) == [1, 2] by {
      assert [1, 2][..1] == [1];
    }
    assert Filter([1, 2, 3], keep) == [1, 2] by {
      assert [1, 2, 3][..2] == [1, 2];
    }
    assert Filter(nums, keep) == [1, 2, 4] by {
      assert nums[..3] == [1, 2, 3];
    }
  }

  /** The page's `currentPage` state over its fixed catalogue. */
  class ProductsPageState {
    var currentPage: int

    function Total(): int {
      TotalPages(ProductCount)
    }

    ghost predicate Valid()
      reads this
    {
      1 <= currentPage <= Total()
    }

    constructor ()
      ensures currentPage == 1 && Valid()
    {
      currentPage := 1;
    }

    method Previous()
      modifies this
      ensures currentPage == PreviousPage(old(currentPage))
      ensures old(Valid()) ==> Valid()
    {
      currentPage := Max(1, currentPage - 1);
    }

    method Next()
      modifies this
      ensures currentPage == NextPage(old(currentPage), Total())
      ensures old(Valid()) ==> Valid()
    {
      currentPage := Min(Total(), currentPage + 1);
    }

    /** A page link: only listed pages can be chosen. */
    method GoTo(page: int)
      requires page in VisiblePages(Total(), currentPage)
      modifies this
      ensures currentPage == page && Valid()
    {
      VisibleMembership(Total(), currentPage, page);
      currentPage := page;
    }
  }
}
