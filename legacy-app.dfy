/**
 * The legacy single-page view: the same loan list, filters, form and
 * dialogs as the dashboard, but with no session, no role and no status
 * checks. Its requests carry no Authorization header, every handler goes
 * on once the request settles whatever the status, and a request that
 * gets no reply rejects the handler's promise and skips the rest.
 */
module LegacyApp {
  import opened Wrappers
  import opened Loans
  import Text
  import LoanFilter
  import opened LoanViewState

  const UpdatedMessage := "Peminjaman berhasil diperbarui!"
  const CreatedMessage := "Peminjaman berhasil ditambahkan!"
  const DeletedMessage := "Peminjaman berhasil dihapus!"
  const AdminNameMissingMessage := "Nama admin wajib diisi!"
  const ReasonMissingMessage := "Alasan penolakan wajib diisi!"
  const ApprovedMessage := "Peminjaman berhasil disetujui!"
  const RejectedMessage := "Peminjaman berhasil ditolak!"

  /** The legacy view's requests carry no headers beyond the content type. */
  const NoAuth: map<string, string> := map[]

  /** A dialog once its request has settled: closed, and the admin name, notes and selection cleared. */
  function Closed(s: ViewState, approve: bool): ViewState {
    if approve then s.(showApproveModal := false, adminName := "", notes := "", selectedLoan := None)
    else s.(showRejectModal := false, adminName := "", notes := "", selectedLoan := None)
  }

  class App {
    var loans: seq<Loan>
    var filteredLoans: seq<Loan>
    var stats: Option<Statistics>
    var form: Loan
    var editingId: Option<int>
    var filterStatus: string
    var searchRoom: string
    var searchBorrower: string
    var showApproveModal: bool
    var showRejectModal: bool
    var showDetailModal: bool
    var selectedLoan: Option<Loan>
    var adminName: string
    var notes: string

    ghost var requests: seq<Request>
    ghost var alerts: seq<string>

    ghost function State(): ViewState
      reads this
    {
      ViewState(loans, filteredLoans, stats, form, editingId, filterStatus, searchRoom, searchBorrower,
                showApproveModal, showRejectModal, showDetailModal, selectedLoan, adminName, notes)
    }

    /** The visible list is the filter effect's (borrower pass always on), and an edit carries its own id. */
    ghost predicate Valid()
      reads this
    {
      Filtered(State(), true) && EditorConsistent(form, editingId)
    }

    constructor ()
      ensures Valid()
      ensures State() == ViewState([], [], None, EmptyForm(""), None, "", "", "",
                                   false, false, false, None, "", "")
      ensures requests == [] && alerts == []
    {
      loans, filteredLoans, stats := [], [], None;
      form := EmptyForm("");
      editingId := None;
      filterStatus, searchRoom, searchBorrower := "", "", "";
      showApproveModal, showRejectModal, showDetailModal := false, false, false;
      selectedLoan := None;
      adminName, notes := "", "";
      requests, alerts := [], [];
    }

    /** The filter effect. */
    method ApplyFilters()
      modifies this`filteredLoans
      ensures filteredLoans == LoanFilter.View(loans, filterStatus, searchRoom, searchBorrower, true)
    {
      filteredLoans := LoanFilter.View(loans, filterStatus, searchRoom, searchBorrower, true);
    }

    /** `fetchLoans(); fetchStatistics();` (also the mount effect): every reply is installed, whatever its status. */
    method Refresh(list: ListReply, statsReply: StatsReply)
      requires Valid()
      modifies this
      ensures Valid()
      ensures requests == old(requests) + Refetches(NoAuth)
      ensures State() == LegacyRefreshed(old(State()), list, statsReply)
      ensures alerts == old(alerts)
    {
      requests := requests + Refetches(NoAuth);
      ReceiveList(list);
      ReceiveStats(statsReply);
    }

    /** The rest of `fetchLoans` once its reply arrives: `setLoans(data); setFilteredLoans(data)`, then the filter effect. */
    method ReceiveList(list: ListReply)
      requires Valid()
      modifies this`loans, this`filteredLoans
      ensures Valid()
      ensures State() == (if list.ListReply? then WithLoans(old(State()), list.body, true) else old(State()))
    {
      if list.ListReply? {
        loans := list.body;
        filteredLoans := list.body;
        ApplyFilters();
      }
    }

    /** The rest of `fetchStatistics` once its reply arrives. */
    method ReceiveStats(statsReply: StatsReply)
      requires Valid()
      modifies this`stats
      ensures Valid()
      ensures State() == (if statsReply.StatsReply? then old(State()).(stats := Some(statsReply.body)) else old(State()))
    {
      if statsReply.StatsReply? {
        stats := Some(statsReply.body);
      }
    }

    /** A settled mutation: its alert, then both refetches. */
    method Settle(message: string, list: ListReply, statsReply: StatsReply)
      requires Valid()
      modifies this
      ensures Valid()
      ensures requests == old(requests) + Refetches(NoAuth)
      ensures State() == LegacyRefreshed(old(State()), list, statsReply)
      ensures alerts == old(alerts) + [message]
    {
      alerts := alerts + [message];
      Refresh(list, statsReply);
    }

    /** Typing into a form input (none is read-only here). */
    method ChangeField(field: FormField, value: string)
      requires Valid()
      modifies this`form
      ensures Valid()
      ensures form == WithField(old(form), field, value)
    {
      form := WithField(form, field, value);
    }

    /** Setting the three filter inputs, after which the filter effect runs. */
    method SetFilters(status: string, room: string, borrower: string)
      requires Valid()
      modifies this`filterStatus, this`searchRoom, this`searchBorrower, this`filteredLoans
      ensures Valid()
      ensures filterStatus == status && searchRoom == room && searchBorrower == borrower
    {
      filterStatus, searchRoom, searchBorrower := status, room, borrower;
      ApplyFilters();
    }

    /** `resetFilters()`: every filter string emptied, so the whole list shows. */
    method ResetFilters()
      requires Valid()
      modifies this`filterStatus, this`searchRoom, this`searchBorrower, this`filteredLoans
      ensures Valid()
      ensures filterStatus == "" && searchRoom == "" && searchBorrower == ""
      ensures filteredLoans == loans
    {
      SetFilters("", "", "");
      LoanFilter.NoFiltersShowsAll(loans, true);
    }

    /** `handleSubmit`: validate, then PUT or POST; once the request settles, alert, reset and refetch, whatever the status. */
    method HandleSubmit(res: Reply, list: ListReply, statsReply: StatsReply)
      requires Valid()
      modifies this
      ensures Valid()
      ensures SubmitError(old(form)).Some? ==>
        requests == old(requests) && State() == old(State()) && alerts == old(alerts) + [SubmitError(old(form)).value]
      ensures SubmitError(old(form)).None? ==>
        requests == old(requests) + [Request(SubmitCall(old(editingId), old(form)), NoAuth)]
                    + (if res.Reply? then Refetches(NoAuth) else [])
      ensures SubmitError(old(form)).None? && res.NetworkError? ==>
        State() == old(State()) && alerts == old(alerts)
      ensures SubmitError(old(form)).None? && res.Reply? ==>
        && State() == LegacyRefreshed(old(State()).(form := EmptyForm(""), editingId := None), list, statsReply)
        && alerts == old(alerts) + [if IdTruthy(old(editingId)) then UpdatedMessage else CreatedMessage]
    {
      var err := SubmitError(form);
      if err.Some? {
        alerts := alerts + [err.value];
        return;
      }
      requests := requests + [Request(SubmitCall(editingId, form), NoAuth)];
      if res.NetworkError? {
        return;
      }
      Saved(list, statsReply);
    }

    /** A settled submit: its alert, editing stopped, the form blanked, both refetches. */
    method Saved(list: ListReply, statsReply: StatsReply)
      requires Valid()
      modifies this
      ensures Valid()
      ensures requests == old(requests) + Refetches(NoAuth)
      ensures State() == LegacyRefreshed(old(State()).(form := EmptyForm(""), editingId := None), list, statsReply)
      ensures alerts == old(alerts) + [if IdTruthy(old(editingId)) then UpdatedMessage else CreatedMessage]
    {
      var updating := IdTruthy(editingId);
      if updating {
        editingId := None;
      }
      form := EmptyForm("");
      assert State() == old(State()).(form := EmptyForm(""), editingId := None);
      Settle(if updating then UpdatedMessage else CreatedMessage, list, statsReply);
    }

    /** `handleEdit(loan)`: the form becomes the loan, with times cut to minutes, and editing starts on its id. */
    method HandleEdit(loan: Loan)
      requires Valid()
      modifies this`form, this`editingId
      ensures Valid()
      ensures form == EditForm(loan) && editingId == EditingIdFor(loan)
    {
      form := EditForm(loan);
      editingId := EditingIdFor(loan);
    }

    /** "Batal Edit": stop editing and blank the form. */
    method CancelEdit()
      requires Valid()
      modifies this`form, this`editingId
      ensures Valid()
      ensures editingId == None && form == EmptyForm("")
    {
      editingId := None;
      form := EmptyForm("");
    }

    /** `handleDelete(id)`: needs a truthy id and a confirmation; once the request settles, refetch whatever the status. */
    method HandleDelete(id: Option<int>, confirmed: bool, res: Reply, list: ListReply, statsReply: StatsReply)
      requires Valid()
      modifies this
      ensures Valid()
      ensures !IdTruthy(id) || !confirmed ==>
        requests == old(requests) && State() == old(State()) && alerts == old(alerts)
      ensures IdTruthy(id) && confirmed ==>
        requests == old(requests) + [Request(DeleteLoan(id.value), NoAuth)]
                    + (if res.Reply? then Refetches(NoAuth) else [])
      ensures IdTruthy(id) && confirmed && res.NetworkError? ==>
        State() == old(State()) && alerts == old(alerts)
      ensures IdTruthy(id) && confirmed && res.Reply? ==>
        State() == LegacyRefreshed(old(State()), list, statsReply) && alerts == old(alerts) + [DeletedMessage]
    {
      if !IdTruthy(id) {
        return;
      }
      if !confirmed {
        return;
      }
      requests := requests + [Request(DeleteLoan(id.value), NoAuth)];
      if res.NetworkError? {
        return;
      }
      Settle(DeletedMessage, list, statsReply);
    }

    /** `openApproveModal(loan)`. */
    method OpenApprove(loan: Loan)
      requires Valid()
      modifies this`selectedLoan, this`showApproveModal
      ensures Valid()
      ensures selectedLoan == Some(loan) && showApproveModal
    {
      selectedLoan := Some(loan);
      showApproveModal := true;
    }

    /** `openRejectModal(loan)`. */
    method OpenReject(loan: Loan)
      requires Valid()
      modifies this`selectedLoan, this`showRejectModal
      ensures Valid()
      ensures selectedLoan == Some(loan) && showRejectModal
    {
      selectedLoan := Some(loan);
      showRejectModal := true;
    }

    /** Typing into the dialogs' admin-name and notes inputs. */
    method SetDecisionInputs(name: string, note: string)
      requires Valid()
      modifies this`adminName, this`notes
      ensures Valid()
      ensures adminName == name && notes == note
    {
      adminName, notes := name, note;
    }

    /** The guard both dialogs share: a selected loan and a non-blank admin name. */
    predicate CanDecide()
      reads this
    {
      selectedLoan.Some? && !Text.IsBlank(adminName)
    }

    /** The request of an approve or reject that passed its guards, and what follows once it settles. */
    method Decide(approve: bool, res: Reply, list: ListReply, statsReply: StatsReply)
      requires Valid() && CanDecide()
      modifies this
      ensures Valid()
      ensures requests == old(requests)
                          + [Request(if approve then ApproveLoan(old(selectedLoan).value.id, old(adminName), old(notes))
                                     else RejectLoan(old(selectedLoan).value.id, old(adminName), old(notes)), NoAuth)]
                          + (if res.Reply? then Refetches(NoAuth) else [])
      ensures res.NetworkError? ==> State() == old(State()) && alerts == old(alerts)
      ensures res.Reply? ==>
        && State() == LegacyRefreshed(Closed(old(State()), approve), list, statsReply)
        && alerts == old(alerts) + [if approve then ApprovedMessage else RejectedMessage]
    {
      var call := if approve then ApproveLoan(selectedLoan.value.id, adminName, notes)
                  else RejectLoan(selectedLoan.value.id, adminName, notes);
      requests := requests + [Request(call, NoAuth)];
      if res.NetworkError? {
        return;
      }
      Decided(approve, list, statsReply);
    }

    /** A settled approve or reject: the dialog closed, admin name, notes and selection cleared, the alert, both refetches. */
    method Decided(approve: bool, list: ListReply, statsReply: StatsReply)
      requires Valid()
      modifies this
      ensures Valid()
      ensures requests == old(requests) + Refetches(NoAuth)
      ensures State() == LegacyRefreshed(Closed(old(State()), approve), list, statsReply)
      ensures alerts == old(alerts) + [if approve then ApprovedMessage else RejectedMessage]
    {
      if approve {
        showApproveModal := false;
      } else {
        showRejectModal := false;
      }
      adminName, notes := "", "";
      selectedLoan := None;
      assert State() == Closed(old(State()), approve);
      Settle(if approve then ApprovedMessage else RejectedMessage, list, statsReply);
    }

    /** `handleApprove`: needs a selected loan and a non-blank admin name, then always closes and refetches. */
    method HandleApprove(res: Reply, list: ListReply, statsReply: StatsReply)
      requires Valid()
      modifies this
      ensures Valid()
      ensures !old(CanDecide()) ==>
        requests == old(requests) && State() == old(State()) && alerts == old(alerts) + [AdminNameMissingMessage]
      ensures old(CanDecide()) ==>
        requests == old(requests) + [Request(ApproveLoan(old(selectedLoan).value.id, old(adminName), old(notes)), NoAuth)]
                    + (if res.Reply? then Refetches(NoAuth) else [])
      ensures old(CanDecide()) && res.NetworkError? ==> State() == old(State()) && alerts == old(alerts)
      ensures old(CanDecide()) && res.Reply? ==>
        && State() == LegacyRefreshed(Closed(old(State()), true), list, statsReply)
        && alerts == old(alerts) + [ApprovedMessage]
    {
      if !CanDecide() {
        alerts := alerts + [AdminNameMissingMessage];
        return;
      }
      Decide(true, res, list, statsReply);
    }

    /** `handleReject`: the approve guard, then non-blank notes; then always closes and refetches. */
    method HandleReject(res: Reply, list: ListReply, statsReply: StatsReply)
      requires Valid()
      modifies this
      ensures Valid()
      ensures !old(CanDecide()) ==>
        requests == old(requests) && State() == old(State()) && alerts == old(alerts) + [AdminNameMissingMessage]
      ensures old(CanDecide()) && Text.IsBlank(old(notes)) ==>
        requests == old(requests) && State() == old(State()) && alerts == old(alerts) + [ReasonMissingMessage]
      ensures old(CanDecide()) && !Text.IsBlank(old(notes)) ==>
        requests == old(requests) + [Request(RejectLoan(old(selectedLoan).value.id, old(adminName), old(notes)), NoAuth)]
                    + (if res.Reply? then Refetches(NoAuth) else [])
      ensures old(CanDecide()) && !Text.IsBlank(old(notes)) && res.NetworkError? ==>
        State() == old(State()) && alerts == old(alerts)
      ensures old(CanDecide()) && !Text.IsBlank(old(notes)) && res.Reply? ==>
        && State() == LegacyRefreshed(Closed(old(State()), false), list, statsReply)
        && alerts == old(alerts) + [RejectedMessage]
    {
      if !CanDecide() {
        alerts := alerts + [AdminNameMissingMessage];
        return;
      }
      if Text.IsBlank(notes) {
        alerts := alerts + [ReasonMissingMessage];
        return;
      }
      Decide(false, res, list, statsReply);
    }

    /** A dialog's "Batal": that dialog closes and the admin name and the notes are cleared. */
    method CancelDecision(approve: bool)
      requires Valid()
      modifies this`showApproveModal, this`showRejectModal, this`adminName, this`notes
      ensures Valid()
      ensures approve ==> !showApproveModal && showRejectModal == old(showRejectModal)
      ensures !approve ==> !showRejectModal && showApproveModal == old(showApproveModal)
      ensures adminName == "" && notes == ""
    {
      if approve {
        showApproveModal := false;
      } else {
        showRejectModal := false;
      }
      adminName, notes := "", "";
    }

    /** A click on a dialog's backdrop: that dialog closes and nothing else changes. */
    method DismissDecision(approve: bool)
      requires Valid()
      modifies this`showApproveModal, this`showRejectModal
      ensures Valid()
      ensures approve ==> !showApproveModal && showRejectModal == old(showRejectModal)
      ensures !approve ==> !showRejectModal && showApproveModal == old(showApproveModal)
    {
      if approve {
        showApproveModal := false;
      } else {
        showRejectModal := false;
      }
    }

    /** The "Detail" button: select the loan and open the detail dialog. */
    method OpenDetail(loan: Loan)
      requires Valid()
      modifies this`selectedLoan, this`showDetailModal
      ensures Valid()
      ensures selectedLoan == Some(loan) && showDetailModal
    {
      selectedLoan := Some(loan);
      showDetailModal := true;
    }

    /** The detail dialog's "Tutup" button or its backdrop: close it, keeping the selection. */
    method CloseDetail()
      requires Valid()
      modifies this`showDetailModal
      ensures Valid()
      ensures !showDetailModal
    {
      showDetailModal := false;
    }
  }
}
