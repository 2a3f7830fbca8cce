/**
 * `useLeadQuoteTable`: the list of leads in the "Quotations" stage with
 * search, sort, pagination, selection, bulk delete, in-place row update and
 * conversion of a lead into a customer.
 */
module LeadQuoteTable {
  import opened Wrappers
  import opened Values
  import opened Seqs
  import opened Effects
  import opened TableView

  const FetchUnauthorized := Notice("Unauthorized", "You need to log in to access this resource.", "error")
  const ConvertConfirm := Notice("Are you sure?", "This lead will be converted to a customer.", "warning")
  const Converted := Notice("Converted!", "The lead has been converted to a customer.", "success")
  const ConvertFailed := Notice("Error!", "Failed to convert the lead to a customer.", "error")
  const NothingSelected := Notice("No record selected", "Please select a record to delete.", "warning")
  const DeleteConfirm := Notice("Are you sure?", "This action cannot be undone.", "warning")
  const LeadsDeleted := Notice("Deleted!", "Selected leads have been deleted.", "success")
  const LeadsDeleteFailed := Notice("Error!", "Failed to delete selected leads.", "error")

  /** The leads a fetch keeps: exactly the fetched rows in the "Quotations" stage, in server order. */
  function Quotations(data: seq<Record>): (r: seq<Record>)
    ensures forall row :: row in r <==> row in data && IsQuotation(row)
  {
    forall row | row in data && IsQuotation(row)
      ensures row in Filter(data, IsQuotation)
    {
      FilterKeeps(data, IsQuotation, row);
    }
    Filter(data, IsQuotation)
  }

  /** The customer record a lead is converted into. */
  function CustomerFromLead(lead: Record): Record {
    map["cust_name" := Get(lead, "customer_name"),
        "cust_email" := Get(lead, "email"),
        "cust_primary_state" := Get(lead, "state")]
  }

  class LeadQuoteTable {
    /** The browser's `String.prototype.localeCompare`. */
    const localeCompare: (string, string) -> int
    var leads: seq<Record>
    var loading: bool
    var searchQuery: string
    var sortBy: string
    var sortDesc: bool
    var currentPage: int
    var selectedLead: Option<Record>
    var isEditModalOpen: bool
    var isAddModalOpen: bool
    var isViewModalOpen: bool
    var selectedIds: seq<Val>

    constructor(localeCompare: (string, string) -> int)
      ensures this.localeCompare == localeCompare
      ensures leads == [] && loading && searchQuery == ""
      ensures sortBy == "created_at" && sortDesc && currentPage == 1
      ensures selectedLead == None && !isEditModalOpen && !isAddModalOpen && !isViewModalOpen
      ensures selectedIds == []
    {
      this.localeCompare := localeCompare;
      leads := [];
      loading := true;
      searchQuery := "";
      sortBy := "created_at";
      sortDesc := true;
      currentPage := 1;
      selectedLead := None;
      isEditModalOpen := false;
      isAddModalOpen := false;
      isViewModalOpen := false;
      selectedIds := [];
    }

    /** `filteredLeads`, sorted in place: the rows matching the search, in column order. */
    function SortedLeads(): seq<Record>
      reads this
    {
      LeadSort(FilterRows(leads, searchQuery), sortBy, sortDesc, localeCompare)
    }

    /** The rows on the current page: at most ten, each a lead that matches the search. */
    function PaginatedData(): (r: seq<Record>)
      reads this
      ensures |r| <= RowsPerPage
      ensures forall row :: row in r ==> row in leads && RowMatches(row, searchQuery)
    {
      var sorted := SortedLeads();
      var page := Page(sorted, currentPage);
      forall row | row in page
        ensures row in leads && RowMatches(row, searchQuery)
      {
        assert row in multiset(sorted);
      }
      page
    }

    /** `Math.ceil(filteredLeads.length / rowsPerPage)`. */
    function TotalPageCount(): nat
      reads this
    {
      TotalPages(|FilterRows(leads, searchQuery)|)
    }

    /**
     * `fetchLeads`: without a token nothing is requested; otherwise the
     * Quotations among the fetched leads replace the list, and a 401 is reported.
     */
    method FetchLeads(token: Option<string>, reply: Reply<seq<Record>>) returns (effects: seq<Effect>)
      modifies this`leads, this`loading
      ensures !loading
      ensures !HasToken(token) ==> effects == [] && leads == old(leads)
      ensures HasToken(token) && reply.Ok? ==>
                effects == [Request(GET, "/lead", Undefined)] && leads == Quotations(reply.data)
      ensures HasToken(token) && reply.Fail? ==>
                leads == old(leads)
                && effects == [Request(GET, "/lead", Undefined)]
                              + (if Unauthorized(reply) then [Fire(FetchUnauthorized)] else [])
    {
      effects := [];
      if HasToken(token) {
        loading := true;
        effects := [Request(GET, "/lead", Undefined)];
        match reply
        case Ok(data) =>
          leads := Quotations(data);
        case Fail(_) =>
          if Unauthorized(reply) {
            effects := effects + [Fire(FetchUnauthorized)];
          }
      }
      loading := false;
    }

    method SetSearchQuery(query: string)
      modifies this`searchQuery
      ensures searchQuery == query
    {
      searchQuery := query;
    }

    method HandleSort(key: string)
      modifies this`sortBy, this`sortDesc
      ensures (sortBy, sortDesc) == NextSort(old(sortBy), old(sortDesc), key)
    {
      if sortBy == key {
        sortDesc := !sortDesc;
      } else {
        sortBy := key;
        sortDesc := false;
      }
    }

    method HandlePageChange(page: int)
      modifies this`currentPage
      ensures currentPage == page
    {
      currentPage := page;
    }

    method ToggleSelectAll()
      modifies this`selectedIds
      ensures selectedIds == LeadToggleAll(old(selectedIds), old(PaginatedData()))
    {
      var page := PaginatedData();
      if |selectedIds| == |page| {
        selectedIds := [];
      } else {
        selectedIds := PageIds(page);
      }
    }

    method ToggleSelect(id: Val)
      modifies this`selectedIds
      ensures selectedIds == TableView.ToggleSelect(old(selectedIds), id)
    {
      selectedIds := TableView.ToggleSelect(selectedIds, id);
    }

    method OpenEditModal(lead: Record)
      modifies this`selectedLead, this`isEditModalOpen
      ensures selectedLead == Some(lead) && isEditModalOpen
    {
      selectedLead := Some(lead);
      isEditModalOpen := true;
    }

    method CloseEditModal()
      modifies this`selectedLead, this`isEditModalOpen
      ensures selectedLead == None && !isEditModalOpen
    {
      isEditModalOpen := false;
      selectedLead := None;
    }

    method OpenViewModal(lead: Record)
      modifies this`selectedLead, this`isViewModalOpen
      ensures selectedLead == Some(lead) && isViewModalOpen
    {
      selectedLead := Some(lead);
      isViewModalOpen := true;
    }

    method CloseViewModal()
      modifies this`selectedLead, this`isViewModalOpen
      ensures selectedLead == None && !isViewModalOpen
    {
      isViewModalOpen := false;
      selectedLead := None;
    }

    /**
     * `convertToCustomer`: after confirmation, creates the customer, deletes
     * the lead, and only when both succeed drops every lead with that id.
     */
    method ConvertToCustomer(lead: Record, confirmed: bool, token: Option<string>,
                             created: Reply<Val>, removed: Reply<Val>)
      returns (effects: seq<Effect>)
      modifies this`leads
      ensures !(confirmed && HasToken(token) && created.Ok? && removed.Ok?) ==> leads == old(leads)
      ensures !confirmed ==> effects == [Confirm(ConvertConfirm)]
      ensures confirmed && !HasToken(token) ==> effects == [Confirm(ConvertConfirm), Fire(ConvertFailed)]
      ensures confirmed && HasToken(token) && created.Fail? ==>
                effects == [Confirm(ConvertConfirm), Request(POST, "/customer", Obj(CustomerFromLead(lead))),
                            Fire(ConvertFailed)]
      ensures confirmed && HasToken(token) && created.Ok? ==>
                effects == [Confirm(ConvertConfirm), Request(POST, "/customer", Obj(CustomerFromLead(lead))),
                            Request(DELETE, ItemPath("lead", Get(lead, "id")), Undefined),
                            Fire(if removed.Ok? then Converted else ConvertFailed)]
      ensures confirmed && HasToken(token) && created.Ok? && removed.Ok? ==>
                leads == RemoveSelected(old(leads), [Get(lead, "id")])
    {
      effects := [Confirm(ConvertConfirm)];
      if confirmed {
        if !HasToken(token) {
          effects := effects + [Fire(ConvertFailed)];
        } else {
          effects := effects + [Request(POST, "/customer", Obj(CustomerFromLead(lead)))];
          if created.Fail? {
            effects := effects + [Fire(ConvertFailed)];
          } else {
            effects := effects + [Request(DELETE, ItemPath("lead", Get(lead, "id")), Undefined)];
            if removed.Fail? {
              effects := effects + [Fire(ConvertFailed)];
            } else {
              leads := RemoveSelected(leads, [Get(lead, "id")]);
              effects := effects + [Fire(Converted)];
            }
          }
        }
      }
    }

    /** `updateLead`: shallow-merges the update into every lead with the same id. */
    method UpdateLead(updated: Record)
      modifies this`leads
      ensures leads == MergeById(old(leads), updated)
    {
      leads := MergeById(leads, updated);
    }

    /**
     * `deleteSelected`: warns on an empty selection; after confirmation fires
     * one DELETE per selected id and, when all succeed, drops those leads and
     * clears the selection.
     */
    method DeleteSelected(confirmed: bool, token: Option<string>, reply: Reply<Val>)
      returns (effects: seq<Effect>)
      modifies this`leads, this`selectedIds
      ensures old(selectedIds) == [] ==> effects == [Fire(NothingSelected)]
      ensures old(selectedIds) != [] && !confirmed ==> effects == [Confirm(DeleteConfirm)]
      ensures old(selectedIds) != [] && confirmed && !HasToken(token) ==>
                effects == [Confirm(DeleteConfirm), Fire(LeadsDeleteFailed)]
      ensures old(selectedIds) != [] && confirmed && HasToken(token) ==>
                effects == [Confirm(DeleteConfirm)] + DeleteRequests("lead", old(selectedIds))
                           + [Fire(if reply.Ok? then LeadsDeleted else LeadsDeleteFailed)]
      ensures old(selectedIds) != [] && confirmed && HasToken(token) && reply.Ok? ==>
                leads == RemoveSelected(old(leads), old(selectedIds)) && selectedIds == []
      ensures !(old(selectedIds) != [] && confirmed && HasToken(token) && reply.Ok?) ==>
                leads == old(leads) && selectedIds == old(selectedIds)
    {
      if selectedIds == [] {
        effects := [Fire(NothingSelected)];
        return;
      }
      effects := [Confirm(DeleteConfirm)];
      if confirmed {
        if !HasToken(token) {
          effects := effects + [Fire(LeadsDeleteFailed)];
        } else {
          effects := effects + DeleteRequests("lead", selectedIds);
          if reply.Ok? {
            leads := RemoveSelected(leads, selectedIds);
            selectedIds := [];
            effects := effects + [Fire(LeadsDeleted)];
          } else {
            effects := effects + [Fire(LeadsDeleteFailed)];
          }
        }
      }
    }
  }

  /** After a successful bulk delete no remaining lead carries a selected id, and every other lead stays. */
  lemma DeleteRemovesExactlySelected(leads: seq<Record>, sel: seq<Val>)
    ensures forall row :: row in RemoveSelected(leads, sel) ==> Get(row, "id") !in sel
    ensures forall row :: row in leads && Get(row, "id") !in sel ==> row in RemoveSelected(leads, sel)
  {
  }
}
