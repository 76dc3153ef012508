/**
 * The state both loan views hold, as one value, and what a refetch of the
 * list and of the statistics does to it.
 */
module LoanViewState {
  import opened Wrappers
  import opened Loans
  import LoanFilter

  /** A snapshot of a loan view's state fields. */
  datatype ViewState = ViewState(
    loans: seq<Loan>,
    filteredLoans: seq<Loan>,
    stats: Option<Statistics>,
    form: Loan,
    editingId: Option<int>,
    filterStatus: string,
    searchRoom: string,
    searchBorrower: string,
    showApproveModal: bool,
    showRejectModal: bool,
    showDetailModal: bool,
    selectedLoan: Option<Loan>,
    adminName: string,
    notes: string)

  /** The filtered list agrees with the filter effect. */
  predicate Filtered(s: ViewState, borrowerEnabled: bool) {
    s.filteredLoans == LoanFilter.View(s.loans, s.filterStatus, s.searchRoom, s.searchBorrower, borrowerEnabled)
  }

  /** `setLoans(data)`, after which the filter effect recomputes the visible list. */
  function WithLoans(s: ViewState, data: seq<Loan>, borrowerEnabled: bool): (t: ViewState)
    ensures Filtered(t, borrowerEnabled) && t.loans == data
    ensures t.(loans := s.loans, filteredLoans := s.filteredLoans) == s
  {
    s.(loans := data,
       filteredLoans := LoanFilter.View(data, s.filterStatus, s.searchRoom, s.searchBorrower, borrowerEnabled))
  }

  /** A reply that tears the session down (the dashboard's `res.status === 401` check). */
  predicate ListUnauthorized(r: ListReply) {
    r.ListReply? && r.status == 401
  }

  predicate StatsUnauthorized(r: StatsReply) {
    r.StatsReply? && r.status == 401
  }

  /** The dashboard's `fetchLoans`: a 401 or a missing reply leaves the list; any other reply replaces it. */
  function AfterList(s: ViewState, list: ListReply, borrowerEnabled: bool): (t: ViewState)
    ensures t.(loans := s.loans, filteredLoans := s.filteredLoans) == s
    ensures list.ListReply? && !ListUnauthorized(list) ==> t.loans == list.body && Filtered(t, borrowerEnabled)
    ensures list.ListNetworkError? || ListUnauthorized(list) ==> t == s
  {
    if list.ListReply? && !ListUnauthorized(list) then WithLoans(s, list.body, borrowerEnabled) else s
  }

  /** The dashboard's `fetchStats`: a 401 or a missing reply leaves the statistics; any other reply replaces them. */
  function AfterStats(s: ViewState, stats: StatsReply): (t: ViewState)
    ensures t.(stats := s.stats) == s
    ensures stats.StatsReply? && !StatsUnauthorized(stats) ==> t.stats == Some(stats.body)
    ensures stats.StatsNetworkError? || StatsUnauthorized(stats) ==> t == s
  {
    if stats.StatsReply? && !StatsUnauthorized(stats) then s.(stats := Some(stats.body)) else s
  }

  /**
   * The dashboard's `fetchLoans(); fetchStats();`: each reply is applied
   * on its own (they touch disjoint fields, so their order does not matter).
   */
  function Refreshed(s: ViewState, list: ListReply, stats: StatsReply, borrowerEnabled: bool): (t: ViewState)
    ensures t.(loans := s.loans, filteredLoans := s.filteredLoans, stats := s.stats) == s
    ensures Filtered(s, borrowerEnabled) ==> Filtered(t, borrowerEnabled)
  {
    AfterStats(AfterList(s, list, borrowerEnabled), stats)
  }

  /** The two replies touch disjoint parts of the state: applying them in either order agrees. */
  lemma RefetchOrderIrrelevant(s: ViewState, list: ListReply, stats: StatsReply, borrowerEnabled: bool)
    ensures Refreshed(s, list, stats, borrowerEnabled) == AfterList(AfterStats(s, stats), list, borrowerEnabled)
    ensures Filtered(s, borrowerEnabled) ==> Filtered(Refreshed(s, list, stats, borrowerEnabled), borrowerEnabled)
  {
  }

  /**
   * The legacy view's refetch: it checks no status, so every reply replaces
   * the list or the statistics; a missing reply rejects the promise and
   * changes nothing.
   */
  function LegacyRefreshed(s: ViewState, list: ListReply, stats: StatsReply): (t: ViewState)
    ensures t.(loans := s.loans, filteredLoans := s.filteredLoans, stats := s.stats) == s
    ensures list.ListReply? ==> t.loans == list.body && Filtered(t, true)
    ensures list.ListNetworkError? ==> t.loans == s.loans && t.filteredLoans == s.filteredLoans
    ensures stats.StatsReply? ==> t.stats == Some(stats.body)
    ensures stats.StatsNetworkError? ==> t.stats == s.stats
  {
    var s1 := if list.ListReply? then WithLoans(s, list.body, true) else s;
    if stats.StatsReply? then s1.(stats := Some(stats.body)) else s1
  }
}
