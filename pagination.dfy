/** The page controls of the admin and manager tables (pages/admin/components/Pagination.tsx). */
module Pagination {
  /** The controls are rendered only when there is more than one page. */
  function Rendered(totalPages: int): (r: bool)
    ensures r <==> totalPages >= 2
  {
    !(totalPages <= 1)
  }

  /** The page "previous" asks for: `Math.max(1, currentPage - 1)`. */
  function PreviousPage(currentPage: int): int {
    if 1 >= currentPage - 1 then 1 else currentPage - 1
  }

  /** The page "next" asks for: `Math.min(totalPages, currentPage + 1)`. */
  function NextPage(currentPage: int, totalPages: int): int {
    if totalPages <= currentPage + 1 then totalPages else currentPage + 1
  }

  predicate PreviousDisabled(currentPage: int) { currentPage == 1 }

  predicate NextDisabled(currentPage: int, totalPages: int) { currentPage == totalPages }

  /** "Previous" never asks for a page below 1, and moves back one page whenever there is one. */
  lemma PreviousPageBounds(currentPage: int)
    ensures PreviousPage(currentPage) >= 1
    ensures currentPage >= 2 ==> PreviousPage(currentPage) == currentPage - 1
    ensures currentPage <= 2 ==> PreviousPage(currentPage) == 1
  {
  }

  /** "Next" never asks for a page beyond the last, and moves on one page whenever there is one. */
  lemma NextPageBounds(currentPage: int, totalPages: int)
    ensures NextPage(currentPage, totalPages) <= totalPages
    ensures currentPage + 1 <= totalPages ==> NextPage(currentPage, totalPages) == currentPage + 1
  {
  }

  /**
   * From a page in range, both requests stay in range, and an enabled button always asks
   * for a different page: one back for "previous", one on for "next".
   */
  lemma RequestsStayInRange(currentPage: int, totalPages: int)
    requires Rendered(totalPages) && 1 <= currentPage <= totalPages
    ensures 1 <= PreviousPage(currentPage) <= totalPages && 1 <= NextPage(currentPage, totalPages) <= totalPages
    ensures !PreviousDisabled(currentPage) ==> PreviousPage(currentPage) == currentPage - 1
    ensures PreviousDisabled(currentPage) ==> PreviousPage(currentPage) == currentPage
    ensures !NextDisabled(currentPage, totalPages) ==> NextPage(currentPage, totalPages) == currentPage + 1
    ensures NextDisabled(currentPage, totalPages) ==> NextPage(currentPage, totalPages) == currentPage
  {
  }
}
