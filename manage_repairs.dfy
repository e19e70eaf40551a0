/**
 * The mock repairs table (components/manage-repairs.tsx): a fixed list of
 * repair rows, searched by client, car and repair type and filtered by status.
 */
module ManageRepairs {
  import opened Js
  import opened Lists

  /** A row of the mock list; every field is text except the id. */
  datatype MockRepair = MockRepair(
    id: int,
    clientName: string,
    carInfo: string,
    repairType: string,
    status: string,
    requestedDate: string)

  /** The search term is lowercased but not trimmed. */
  predicate MatchesSearch(r: MockRepair, searchTerm: string) {
    var t := Lower(searchTerm);
    Includes(Lower(r.clientName), t) || Includes(Lower(r.carInfo), t) || Includes(Lower(r.repairType), t)
  }

  predicate MatchesStatus(r: MockRepair, statusFilter: string) {
    statusFilter == "all" || r.status == statusFilter
  }

  /** `filteredRepairs` (lines 63-72) */
  function FilteredRepairs(repairs: seq<MockRepair>, searchTerm: string, statusFilter: string): (r: seq<MockRepair>)
    ensures Sublist(r, repairs)
    ensures forall x :: x in r <==> x in repairs && MatchesSearch(x, searchTerm) && MatchesStatus(x, statusFilter)
  {
    Filter(repairs, x => MatchesSearch(x, searchTerm) && MatchesStatus(x, statusFilter))
  }

  /** An empty term leaves only the status test: the status-filtered list. */
  lemma EmptyTermFiltersByStatus(repairs: seq<MockRepair>, statusFilter: string)
    ensures FilteredRepairs(repairs, "", statusFilter) == Filter(repairs, x => MatchesStatus(x, statusFilter))
  {
    forall i | 0 <= i < |repairs| ensures MatchesSearch(repairs[i], "") {
      IncludesTrivial(Lower(repairs[i].clientName));
    }
    FilterSameTest(repairs, x => MatchesSearch(x, "") && MatchesStatus(x, statusFilter),
                   x => MatchesStatus(x, statusFilter));
  }

  /** An empty term with the status "all" shows the whole list. */
  lemma EmptyTermAllStatuses(repairs: seq<MockRepair>)
    ensures FilteredRepairs(repairs, "", "all") == repairs
  {
    EmptyTermFiltersByStatus(repairs, "all");
    FilterAll(repairs, x => MatchesStatus(x, "all"));
  }

  /** Searching and filtering by status commute: the result is the search applied
      to the status-filtered list. */
  lemma SearchAfterStatus(repairs: seq<MockRepair>, searchTerm: string, statusFilter: string)
    ensures FilteredRepairs(repairs, searchTerm, statusFilter) ==
            Filter(Filter(repairs, x => MatchesStatus(x, statusFilter)), x => MatchesSearch(x, searchTerm))
  {
    FilterBoth(repairs, x => MatchesSearch(x, searchTerm), x => MatchesStatus(x, statusFilter),
               x => MatchesSearch(x, searchTerm) && MatchesStatus(x, statusFilter));
  }
}
