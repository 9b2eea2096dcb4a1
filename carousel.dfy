/** The featured-companies carousel
    (frontend/src/components/homepage/CompanyCarousel.tsx): three companies
    a page, arrows that wrap around, and dots that jump to a page. The
    500 ms timer that ends a scroll is the separate method `ScrollEnded`. */
module Carousel {
  /** `itemsPerPage` */
  const ItemsPerPage := 3

  /** `Math.ceil(n / itemsPerPage)` */
  function TotalPages(n: nat): (p: nat)
    ensures p * ItemsPerPage >= n
    ensures n > 0 ==> (p - 1) * ItemsPerPage < n && p >= 1
    ensures n == 0 ==> p == 0
  {
    (n + ItemsPerPage - 1) / ItemsPerPage
  }

  datatype Direction = Left | Right

  /** The page an arrow leads to: left from page 0 goes to the last page,
      right from the last page goes to page 0. */
  function ScrollTarget(page: int, direction: Direction, totalPages: int): int {
    match direction
    case Left => if page == 0 then totalPages - 1 else page - 1
    case Right => if page == totalPages - 1 then 0 else page + 1
  }

  /** With at least one page, the arrows stay on the pages, each undoes
      the other, and going right once per page comes back to the start. */
  lemma ScrollWraps(page: int, totalPages: int)
    requires 0 <= page < totalPages
    ensures 0 <= ScrollTarget(page, Left, totalPages) < totalPages
    ensures 0 <= ScrollTarget(page, Right, totalPages) < totalPages
    ensures ScrollTarget(ScrollTarget(page, Right, totalPages), Left, totalPages) == page
    ensures ScrollTarget(ScrollTarget(page, Left, totalPages), Right, totalPages) == page
    ensures ScrollTarget(page, Right, totalPages) == (page + 1) % totalPages
  {
  }

  /** With no companies there are no pages, and left from page 0 gives
      page -1; the home page shows the carousel only when it has companies. */
  lemma EmptyCarouselLeft()
    ensures ScrollTarget(0, Left, TotalPages(0)) == -1
  {
  }

  /** JavaScript's `a.slice(start, end)`: negative bounds count from the
      end, and bounds are clamped to the array. */
  function JsSlice<T>(a: seq<T>, start: int, end: int): (r: seq<T>)
    ensures |r| <= |a|
  {
    var s := if start < 0 then (if |a| + start < 0 then 0 else |a| + start) else (if start > |a| then |a| else start);
    var e := if end < 0 then (if |a| + end < 0 then 0 else |a| + end) else (if end > |a| then |a| else end);
    if s < e then a[s..e] else []
  }

  /** The companies on a page. */
  function Visible<T>(companies: seq<T>, page: int): seq<T> {
    JsSlice(companies, page * ItemsPerPage, page * ItemsPerPage + ItemsPerPage)
  }

  /** A page shows the companies from `page * 3` on, at most three, and at
      least one when the page exists. */
  lemma VisibleShape<T>(companies: seq<T>, page: int)
    requires 0 <= page < TotalPages(|companies|)
    ensures var v := Visible(companies, page);
      1 <= |v| <= ItemsPerPage && v == companies[page * ItemsPerPage .. page * ItemsPerPage + |v|]
  {
  }

  /** The concatenation of pages `from` to `TotalPages - 1`. */
  function PagesFrom<T>(companies: seq<T>, from: nat): seq<T>
    decreases TotalPages(|companies|) - from
  {
    if from >= TotalPages(|companies|) then [] else Visible(companies, from) + PagesFrom(companies, from + 1)
  }

  /** The pages, read in order, show every company exactly once. */
  lemma {:induction false} PagesPartition<T>(companies: seq<T>, from: nat)
    requires from <= TotalPages(|companies|)
    ensures from * ItemsPerPage <= |companies| ==> PagesFrom(companies, from) == companies[from * ItemsPerPage..]
    decreases TotalPages(|companies|) - from
  {
    var n := |companies|;
    if from < TotalPages(n) {
      PagesPartition(companies, from + 1);
      var start := from * ItemsPerPage;
      assert (from + 1) * ItemsPerPage == start + ItemsPerPage;
      if start + ItemsPerPage <= n {
        assert Visible(companies, from) == companies[start..start + ItemsPerPage];
        assert companies[start..] == companies[start..start + ItemsPerPage] + companies[start + ItemsPerPage..];
      } else if start <= n {
        assert Visible(companies, from) == companies[start..];
        LastPage(n, from);
      }
    }
  }

  /** A page that reaches past the last company is the last page. */
  lemma LastPage(n: nat, page: nat)
    requires page < TotalPages(n) && n < page * ItemsPerPage + ItemsPerPage
    ensures TotalPages(n) == page + 1
  {
  }

  /** The carousel's state over the companies it was given. */
  class CompanyCarousel<T> {
    const companies: seq<T>
    var currentPage: int
    var isScrolling: bool

    /** With companies to show, the page is one of theirs. */
    predicate Valid()
      reads this
    {
      |companies| > 0 ==> 0 <= currentPage < TotalPages(|companies|)
    }

    constructor(companies: seq<T>)
      ensures this.companies == companies && currentPage == 0 && !isScrolling && Valid()
    {
      this.companies := companies;
      currentPage := 0;
      isScrolling := false;
    }

    /** `scroll(direction)`: ignored while a scroll is under way; otherwise
        marks the scroll and moves to the wrapped-around page. */
    method Scroll(direction: Direction)
      requires Valid()
      modifies this
      ensures Valid()
      ensures old(isScrolling) ==> currentPage == old(currentPage) && isScrolling
      ensures !old(isScrolling) ==> isScrolling && currentPage == ScrollTarget(old(currentPage), direction, TotalPages(|companies|))
    {
      if isScrolling {
        return;
      }
      isScrolling := true;
      var totalPages := TotalPages(|companies|);
      var newPage;
      if direction == Left {
        newPage := if currentPage == 0 then totalPages - 1 else currentPage - 1;
      } else {
        newPage := if currentPage == totalPages - 1 then 0 else currentPage + 1;
      }
      currentPage := newPage;
    }

    /** The timer set by `scroll` firing. */
    method ScrollEnded()
      modifies this
      ensures !isScrolling && currentPage == old(currentPage)
    {
      isScrolling := false;
    }

    /** A dot's click: ignored while a scroll is under way. Dots exist only
        for the pages there are. */
    method DotClicked(index: int)
      requires Valid() && 0 <= index < TotalPages(|companies|)
      modifies this
      ensures Valid() && isScrolling == old(isScrolling)
      ensures currentPage == if old(isScrolling) then old(currentPage) else index
    {
      if isScrolling {
        return;
      }
      currentPage := index;
    }

    /** `visibleCompanies()` */
    function VisibleCompanies(): (r: seq<T>)
      reads this
      ensures |r| <= ItemsPerPage
      ensures Valid() && |companies| > 0 ==> r != [] && currentPage * ItemsPerPage + |r| <= |companies| && r == companies[currentPage * ItemsPerPage .. currentPage * ItemsPerPage + |r|]
    {
      if |companies| > 0 && 0 <= currentPage < TotalPages(|companies|) then
        VisibleShape(companies, currentPage);
        Visible(companies, currentPage)
      else
        Visible(companies, currentPage)
    }
  }
}
