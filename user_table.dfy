/**
 * `useUserTable`: the list of back-office users with search, sort,
 * pagination, selection, bulk delete and in-place row update. It shares the
 * view rules of the lead table except for its comparator and its
 * select-all, which skips rows without an id.
 */
module UserTable {
  import opened Wrappers
  import opened Values
  import opened Effects
  import opened TableView

  const FetchUnauthorized := Notice("Unauthorized", "You need to log in to access this resource.", "error")
  const NothingSelected := Notice("No record selected", "Please select a record to delete.", "warning")
  const DeleteConfirm := Notice("Are you sure?", "This action cannot be undone.", "warning")
  const UsersDeleted := Notice("Deleted!", "The selected users have been removed.", "success")
  const UsersDeleteFailed := Notice("Error!", "Failed to delete selected users.", "error")

  class UserTable {
    /** The browser's `String.prototype.localeCompare`. */
    const localeCompare: (string, string) -> int
    var users: seq<Record>
    var loading: bool
    var searchQuery: string
    var sortBy: string
    var sortDesc: bool
    var currentPage: int
    var selectedUser: Option<Record>
    var isEditModalOpen: bool
    var isAddModalOpen: bool
    var isViewModalOpen: bool
    var selectedIds: seq<Val>

    constructor(localeCompare: (string, string) -> int)
      ensures this.localeCompare == localeCompare
      ensures users == [] && loading && searchQuery == ""
      ensures sortBy == "created_at" && sortDesc && currentPage == 1
      ensures selectedUser == None && !isEditModalOpen && !isAddModalOpen && !isViewModalOpen
      ensures selectedIds == []
    {
      this.localeCompare := localeCompare;
      users := [];
      loading := true;
      searchQuery := "";
      sortBy := "created_at";
      sortDesc := true;
      currentPage := 1;
      selectedUser := None;
      isEditModalOpen := false;
      isAddModalOpen := false;
      isViewModalOpen := false;
      selectedIds := [];
    }

    function SortedUsers(): seq<Record>
      reads this
    {
      UserSort(FilterRows(users, searchQuery), sortBy, sortDesc, localeCompare)
    }

    /** The rows on the current page: at most ten, each a user that matches the search. */
    function PaginatedData(): (r: seq<Record>)
      reads this
      ensures |r| <= RowsPerPage
      ensures forall row :: row in r ==> row in users && RowMatches(row, searchQuery)
    {
      var sorted := SortedUsers();
      var page := Page(sorted, currentPage);
      forall row | row in page
        ensures row in users && RowMatches(row, searchQuery)
      {
        assert row in multiset(sorted);
      }
      page
    }

    function TotalPageCount(): nat
      reads this
    {
      TotalPages(|FilterRows(users, searchQuery)|)
    }

    /** `fetchUsers`: without a token nothing is requested; otherwise the fetched users replace the list. */
    method FetchUsers(token: Option<string>, reply: Reply<seq<Record>>) returns (effects: seq<Effect>)
      modifies this`users, this`loading
      ensures !loading
      ensures !HasToken(token) ==> effects == [] && users == old(users)
      ensures HasToken(token) && reply.Ok? ==>
                effects == [Request(GET, "/user", Undefined)] && users == reply.data
      ensures HasToken(token) && reply.Fail? ==>
                users == old(users)
                && effects == [Request(GET, "/user", Undefined)]
                              + (if Unauthorized(reply) then [Fire(FetchUnauthorized)] else [])
    {
      effects := [];
      if HasToken(token) {
        loading := true;
        effects := [Request(GET, "/user", Undefined)];
        match reply
        case Ok(data) =>
          users := data;
        case Fail(_) =>
          if Unauthorized(reply) {
            effects := effects + [Fire(FetchUnauthorized)];
          }
      }
      loading := false;
    }

    method SetSearchQuery(query: string)
      modifies this`searchQuery
      ensures searchQuery == query
    {
      searchQuery := query;
    }

    method HandlePageChange(page: int)
      modifies this`currentPage
      ensures currentPage == page
    {
      currentPage := page;
    }

    method HandleSort(key: string)
      modifies this`sortBy, this`sortDesc
      ensures (sortBy, sortDesc) == NextSort(old(sortBy), old(sortDesc), key)
    {
      if sortBy == key {
        sortDesc := !sortDesc;
      } else {
        sortBy := key;
        sortDesc := false;
      }
    }

    method ToggleSelectAll()
      modifies this`selectedIds
      ensures selectedIds == UserToggleAll(old(selectedIds), old(PaginatedData()))
    {
      selectedIds := UserToggleAll(selectedIds, PaginatedData());
    }

    method ToggleSelect(id: Val)
      modifies this`selectedIds
      ensures selectedIds == TableView.ToggleSelect(old(selectedIds), id)
    {
      selectedIds := TableView.ToggleSelect(selectedIds, id);
    }

    /**
     * `deleteSelected`: warns on an empty selection; after confirmation fires
     * one DELETE per selected id and, when all succeed, drops those users and
     * clears the selection.
     */
    method DeleteSelected(confirmed: bool, token: Option<string>, reply: Reply<Val>)
      returns (effects: seq<Effect>)
      modifies this`users, this`selectedIds
      ensures old(selectedIds) == [] ==> effects == [Fire(NothingSelected)]
      ensures old(selectedIds) != [] && !confirmed ==> effects == [Confirm(DeleteConfirm)]
      ensures old(selectedIds) != [] && confirmed && !HasToken(token) ==>
                effects == [Confirm(DeleteConfirm), Fire(UsersDeleteFailed)]
      ensures old(selectedIds) != [] && confirmed && HasToken(token) ==>
                effects == [Confirm(DeleteConfirm)] + DeleteRequests("user", old(selectedIds))
                           + [Fire(if reply.Ok? then UsersDeleted else UsersDeleteFailed)]
      ensures old(selectedIds) != [] && confirmed && HasToken(token) && reply.Ok? ==>
                users == RemoveSelected(old(users), old(selectedIds)) && selectedIds == []
      ensures !(old(selectedIds) != [] && confirmed && HasToken(token) && reply.Ok?) ==>
                users == old(users) && selectedIds == old(selectedIds)
    {
      if selectedIds == [] {
        effects := [Fire(NothingSelected)];
        return;
      }
      effects := [Confirm(DeleteConfirm)];
      if confirmed {
        if !HasToken(token) {
          effects := effects + [Fire(UsersDeleteFailed)];
        } else {
          effects := effects + DeleteRequests("user", selectedIds);
          if reply.Ok? {
            users := RemoveSelected(users, selectedIds);
            selectedIds := [];
            effects := effects + [Fire(UsersDeleted)];
          } else {
            effects := effects + [Fire(UsersDeleteFailed)];
          }
        }
      }
    }

    method OpenEditModal(user: Record)
      modifies this`selectedUser, this`isEditModalOpen
      ensures selectedUser == Some(user) && isEditModalOpen
    {
      selectedUser := Some(user);
      isEditModalOpen := true;
    }

    method OpenViewModal(user: Record)
      modifies this`selectedUser, this`isViewModalOpen
      ensures selectedUser == Some(user) && isViewModalOpen
    {
      selectedUser := Some(user);
      isViewModalOpen := true;
    }

    /** `updateUser`: shallow-merges the update into every user with the same id. */
    method UpdateUser(updated: Record)
      modifies this`users
      ensures users == MergeById(old(users), updated)
    {
      users := MergeById(users, updated);
    }
  }
}
