/**
 * The demonstration table of `components/dashboard/UsersTable.tsx`: a fixed
 * list of users paged on the client by 5. The list itself is a data file
 * that is not part of this model; here it is the table's `users` constant.
 */
module UsersTable {
  import opened Interfaces
  import Pagination

  class Table {
    const users: seq<User>
    const limit: nat
    var currentPage: int

    /** The page stays between 1 and the last page (page 1 when there is no user). */
    ghost predicate Valid()
      reads this
    {
      limit == 5 && 1 <= currentPage <= Pagination.Max(1, Pagination.TotalPages(|users|, limit))
    }

    /** `totalItems`: the length of the fixed list. */
    function TotalItems(): (n: nat)
      reads this
      ensures n == |users|
    {
      |users|
    }

    /** The initial state: page 1 of the given list. */
    constructor(users: seq<User>)
      ensures Valid() && this.users == users && currentPage == 1
    {
      this.users := users;
      limit := 5;
      currentPage := 1;
    }

    /** `handleNextPage`: it never moves past the last page. */
    method NextPage()
      requires Valid()
      modifies this`currentPage
      ensures Valid()
      ensures currentPage == Pagination.NextPage(old(currentPage), TotalItems(), limit)
    {
      if currentPage * limit < |users| {
        currentPage := currentPage + 1;
      }
    }

    /** `handlePreviousPage`. */
    method PreviousPage()
      requires Valid()
      modifies this`currentPage
      ensures Valid()
      ensures currentPage == Pagination.PreviousPage(old(currentPage))
    {
      if currentPage > 1 {
        currentPage := currentPage - 1;
      }
    }

    /** The rows shown: `fakeUsers.slice((currentPage - 1) * 5, currentPage * 5)`. */
    function Rows(): (w: seq<User>)
      reads this
      requires Valid()
      ensures |w| <= limit
      ensures |w| == Pagination.Max(0, Pagination.Min(currentPage * limit, |users|) - (currentPage - 1) * limit)
      ensures forall k :: 0 <= k < |w| ==> w[k] == users[(currentPage - 1) * limit + k]
    {
      Pagination.Window(users, currentPage, limit)
    }

    /** Because the page never passes the last one, a non-empty list never shows an empty page. */
    lemma RowsNeverEmpty()
      requires Valid() && users != []
      ensures Rows() != []
    {
      Pagination.WindowEmptyPastLastPage(users, currentPage, limit);
    }
  }

  /** Every user of the list is shown: user `i` is row `i % 5` of page `i / 5 + 1`, a page within the bound. */
  lemma EveryUserShown(users: seq<User>, i: nat)
    requires i < |users|
    ensures var w := Pagination.Window(users, i / 5 + 1, 5); i % 5 < |w| && w[i % 5] == users[i]
    ensures i / 5 + 1 <= Pagination.TotalPages(|users|, 5)
  {
    Pagination.WindowOfIndex(users, 5, i);
    Pagination.WindowEmptyPastLastPage(users, i / 5 + 1, 5);
  }
}
