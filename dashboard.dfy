/**
 * The dashboard component: the loan list with its filters, the loan form,
 * the approve and reject dialogs, and the handlers that issue requests and
 * refetch. Each handler takes the replies it would await as parameters,
 * and `window.confirm`'s answer where it asks. A ghost log records every
 * request issued, every alert shown and whether the view sent the user
 * to the login page.
 */
module DashboardComponent {
  import opened Wrappers
  import opened Loans
  import Text
  import Auth
  import LoanFilter
  import opened LoanViewState

  const UpdatedMessage := "Peminjaman berhasil diperbarui!"
  const CreatedMessage := "Peminjaman berhasil ditambahkan!"
  const SubmitCrashMessage := "Terjadi kesalahan!"
  const DeleteFailedMessage := "Gagal menghapus"
  const DeletedMessage := "Berhasil dihapus!"
  const AdminNameMissingMessage := "Nama admin wajib diisi!"
  const ReasonMissingMessage := "Alasan wajib diisi!"
  const ApprovedMessage := "Disetujui!"
  const RejectedMessage := "Ditolak!"

  /** `currentUser?.fullName || ""`. */
  function DisplayName(user: Option<Auth.LoginResponse>): string {
    if user.Some? then user.value.fullName else ""
  }

  /** The alert a failed submit shows: never empty, and the server's own message whenever it sent one. */
  function SubmitFailureMessage(res: Reply, updating: bool): (m: string)
    ensures m != ""
    ensures res.Reply? && res.message != "" ==> m == res.message
    ensures res.NetworkError? ==> m == SubmitCrashMessage
  {
    if res.NetworkError? then SubmitCrashMessage
    else OrElse(res.message, if updating then "Gagal update" else "Gagal simpan")
  }

  /** An approve or reject dialog after an ok reply: closed, with the notes and the selection cleared. */
  function Closed(s: ViewState, approve: bool): ViewState {
    if approve then s.(showApproveModal := false, notes := "", selectedLoan := None)
    else s.(showRejectModal := false, notes := "", selectedLoan := None)
  }

  /** A refetch whose reply is a 401 signs the user out. */
  predicate SignsOut(list: ListReply, stats: StatsReply) {
    ListUnauthorized(list) || StatsUnauthorized(stats)
  }

  class Dashboard {
    const session: Auth.Session
    const currentUser: Option<Auth.LoginResponse>
    const isAdmin: bool

    var loans: seq<Loan>
    var filteredLoans: seq<Loan>
    var stats: Option<Statistics>
    var form: Loan
    var editingId: Option<int>
    var filterStatus: string
    var searchRoom: string
    var searchBorrower: string
    var showApproveModal: bool
    var showRejectModal: bool
    var showDetailModal: bool
    var selectedLoan: Option<Loan>
    var adminName: string
    var notes: string

    ghost var requests: seq<Request>
    ghost var alerts: seq<string>
    ghost var redirectedToLogin: bool

    ghost function State(): ViewState
      reads this
    {
      ViewState(loans, filteredLoans, stats, form, editingId, filterStatus, searchRoom, searchBorrower,
                showApproveModal, showRejectModal, showDetailModal, selectedLoan, adminName, notes)
    }

    /** The visible list is the filter effect's, and an edit in progress carries its own id. */
    ghost predicate Valid()
      reads this
    {
      Filtered(State(), isAdmin) && EditorConsistent(form, editingId)
    }

    /** The first render: the session is read once, and the form and admin name start as the user's name. */
    constructor (session: Auth.Session)
      ensures this.session == session && currentUser == session.user && isAdmin == session.IsAdmin()
      ensures Valid()
      ensures State() == ViewState([], [], None, EmptyForm(DisplayName(currentUser)), None, "", "", "",
                                   false, false, false, None, DisplayName(currentUser), "")
      ensures requests == [] && alerts == [] && !redirectedToLogin
    {
      this.session := session;
      currentUser := session.user;
      isAdmin := session.IsAdmin();
      loans, filteredLoans, stats := [], [], None;
      form := EmptyForm(DisplayName(session.user));
      editingId := None;
      filterStatus, searchRoom, searchBorrower := "", "", "";
      showApproveModal, showRejectModal, showDetailModal := false, false, false;
      selectedLoan := None;
      adminName := DisplayName(session.user);
      notes := "";
      requests, alerts, redirectedToLogin := [], [], false;
    }

    /** The filter effect, run whenever a filter string or the list changes. */
    method ApplyFilters()
      modifies this`filteredLoans
      ensures filteredLoans == LoanFilter.View(loans, filterStatus, searchRoom, searchBorrower, isAdmin)
    {
      filteredLoans := LoanFilter.View(loans, filterStatus, searchRoom, searchBorrower, isAdmin);
    }

    /**
     * `fetchLoans(); fetchStats();` (also the mount effect). Both requests
     * go out with the current header before either reply is read; a 401 to
     * either signs out and redirects to the login page.
     */
    method Refresh(list: ListReply, statsReply: StatsReply)
      requires Valid()
      modifies this, session
      ensures Valid()
      ensures requests == old(requests) + Refetches(old(session.GetAuthHeader()))
      ensures State() == Refreshed(old(State()), list, statsReply, isAdmin)
      ensures session.user == if SignsOut(list, statsReply) then None else old(session.user)
      ensures redirectedToLogin == (old(redirectedToLogin) || SignsOut(list, statsReply))
      ensures alerts == old(alerts)
    {
      requests := requests + Refetches(session.GetAuthHeader());
      ReceiveList(list);
      ReceiveStats(statsReply);
    }

    /** The rest of `fetchLoans` once its reply arrives. */
    method ReceiveList(list: ListReply)
      requires Valid()
      modifies this, session
      ensures Valid()
      ensures State() == AfterList(old(State()), list, isAdmin)
      ensures session.user == if ListUnauthorized(list) then None else old(session.user)
      ensures redirectedToLogin == (old(redirectedToLogin) || ListUnauthorized(list))
      ensures requests == old(requests) && alerts == old(alerts)
    {
      if list.ListReply? {
        if list.status == 401 {
          SignOut();
        } else {
          Install(list.body);
        }
      }
    }

    /** `setLoans(data); setFilteredLoans(data)`, then the filter effect. */
    method Install(data: seq<Loan>)
      requires Valid()
      modifies this`loans, this`filteredLoans
      ensures Valid()
      ensures State() == WithLoans(old(State()), data, isAdmin)
    {
      loans := data;
      filteredLoans := data;
      ApplyFilters();
    }

    /** A 401: `authService.logout(); navigate("/login")`. */
    method SignOut()
      requires Valid()
      modifies this`redirectedToLogin, session
      ensures Valid()
      ensures session.user == None && redirectedToLogin
    {
      session.Logout();
      redirectedToLogin := true;
    }

    /** The rest of `fetchStats` once its reply arrives. */
    method ReceiveStats(statsReply: StatsReply)
      requires Valid()
      modifies this, session
      ensures Valid()
      ensures State() == AfterStats(old(State()), statsReply)
      ensures session.user == if StatsUnauthorized(statsReply) then None else old(session.user)
      ensures redirectedToLogin == (old(redirectedToLogin) || StatsUnauthorized(statsReply))
      ensures requests == old(requests) && alerts == old(alerts)
    {
      if statsReply.StatsReply? {
        if statsReply.status == 401 {
          SignOut();
        } else {
          stats := Some(statsReply.body);
        }
      }
    }

    /** `resetForm()`: the blank form, with the user's name as borrower. */
    method ResetForm()
      requires Valid() && editingId.None?
      modifies this`form
      ensures Valid()
      ensures form == EmptyForm(DisplayName(currentUser))
    {
      form := EmptyForm(DisplayName(currentUser));
    }

    /** Typing into a form input. The borrower input is read-only for a non-administrator. */
    method ChangeField(field: FormField, value: string)
      requires Valid()
      modifies this`form
      ensures Valid()
      ensures form == if field.BorrowerField? && !isAdmin then old(form) else WithField(old(form), field, value)
    {
      if !(field.BorrowerField? && !isAdmin) {
        form := WithField(form, field, value);
      }
    }

    /** Setting the three filter inputs, after which the filter effect runs. */
    method SetFilters(status: string, room: string, borrower: string)
      requires Valid()
      modifies this`filterStatus, this`searchRoom, this`searchBorrower, this`filteredLoans
      ensures Valid()
      ensures filterStatus == status && searchRoom == room && searchBorrower == borrower
    {
      filterStatus, searchRoom, searchBorrower := status, room, borrower;
      ApplyFilters();
    }

    /** "Reset Filter": every filter string emptied, so the whole list shows. */
    method ResetFilters()
      requires Valid()
      modifies this`filterStatus, this`searchRoom, this`searchBorrower, this`filteredLoans
      ensures Valid()
      ensures filterStatus == "" && searchRoom == "" && searchBorrower == ""
      ensures filteredLoans == loans
    {
      SetFilters("", "", "");
      LoanFilter.NoFiltersShowsAll(loans, isAdmin);
    }

    /** No request, no state change, no sign-out: what a failed guard or a failed reply leaves. */
    twostate predicate Untouched()
      reads this, session
    {
      && requests == old(requests) && State() == old(State())
      && session.user == old(session.user) && redirectedToLogin == old(redirectedToLogin)
    }

    /** The state is `s` refetched with these replies, and a 401 signed out and redirected. */
    twostate predicate RefetchedFrom(s: ViewState, list: ListReply, statsReply: StatsReply)
      reads this, session
    {
      && State() == Refreshed(s, list, statsReply, isAdmin)
      && session.user == (if SignsOut(list, statsReply) then None else old(session.user))
      && redirectedToLogin == (old(redirectedToLogin) || SignsOut(list, statsReply))
    }

    /** An ok reply to a mutation: its alert, then both refetches. */
    method Succeed(message: string, list: ListReply, statsReply: StatsReply)
      requires Valid()
      modifies this, session
      ensures Valid()
      ensures requests == old(requests) + Refetches(old(session.GetAuthHeader()))
      ensures RefetchedFrom(old(State()), list, statsReply)
      ensures alerts == old(alerts) + [message]
    {
      alerts := alerts + [message];
      Refresh(list, statsReply);
    }

    /** `handleSubmit`: validate, then PUT or POST; only an ok reply resets the form and refetches. */
    method HandleSubmit(res: Reply, list: ListReply, statsReply: StatsReply)
      requires Valid()
      modifies this, session
      ensures Valid()
      ensures SubmitError(old(form)).Some? ==>
        Untouched() && alerts == old(alerts) + [SubmitError(old(form)).value]
      ensures SubmitError(old(form)).None? ==>
        requests == old(requests)
                    + [Request(SubmitCall(old(editingId), old(form)), old(session.GetAuthHeader()))]
                    + (if IsOk(res) then Refetches(old(session.GetAuthHeader())) else [])
      ensures SubmitError(old(form)).None? && !IsOk(res) ==>
        && State() == old(State())
        && session.user == old(session.user) && redirectedToLogin == old(redirectedToLogin)
        && alerts == old(alerts) + [SubmitFailureMessage(res, IdTruthy(old(editingId)))]
      ensures SubmitError(old(form)).None? && IsOk(res) ==>
        && RefetchedFrom(old(State()).(form := EmptyForm(DisplayName(currentUser)), editingId := None), list, statsReply)
        && alerts == old(alerts) + [if IdTruthy(old(editingId)) then UpdatedMessage else CreatedMessage]
    {
      var err := SubmitError(form);
      if err.Some? {
        alerts := alerts + [err.value];
        return;
      }
      Send(res, list, statsReply);
    }

    /** The request of a submit that passed validation, and what its reply leads to. */
    method Send(res: Reply, list: ListReply, statsReply: StatsReply)
      requires Valid()
      modifies this, session
      ensures Valid()
      ensures requests == old(requests)
                          + [Request(SubmitCall(old(editingId), old(form)), old(session.GetAuthHeader()))]
                          + (if IsOk(res) then Refetches(old(session.GetAuthHeader())) else [])
      ensures !IsOk(res) ==>
        && State() == old(State())
        && session.user == old(session.user) && redirectedToLogin == old(redirectedToLogin)
        && alerts == old(alerts) + [SubmitFailureMessage(res, IdTruthy(old(editingId)))]
      ensures IsOk(res) ==>
        && RefetchedFrom(old(State()).(form := EmptyForm(DisplayName(currentUser)), editingId := None), list, statsReply)
        && alerts == old(alerts) + [if IdTruthy(old(editingId)) then UpdatedMessage else CreatedMessage]
    {
      requests := requests + [Request(SubmitCall(editingId, form), session.GetAuthHeader())];
      if !IsOk(res) {
        alerts := alerts + [SubmitFailureMessage(res, IdTruthy(editingId))];
        return;
      }
      assert State() == old(State());
      Saved(list, statsReply);
    }

    /** An ok reply to a submit: its alert, editing stopped, the form blanked, both refetches. */
    method Saved(list: ListReply, statsReply: StatsReply)
      requires Valid()
      modifies this, session
      ensures Valid()
      ensures requests == old(requests) + Refetches(old(session.GetAuthHeader()))
      ensures RefetchedFrom(old(State()).(form := EmptyForm(DisplayName(currentUser)), editingId := None), list, statsReply)
      ensures alerts == old(alerts) + [if IdTruthy(old(editingId)) then UpdatedMessage else CreatedMessage]
    {
      var updating := IdTruthy(editingId);
      if updating {
        editingId := None;
      }
      ResetForm();
      assert State() == old(State()).(form := EmptyForm(DisplayName(currentUser)), editingId := None);
      Succeed(if updating then UpdatedMessage else CreatedMessage, list, statsReply);
    }

    /** `handleEdit(loan)`: the form becomes the loan, with times cut to minutes, and editing starts on its id. */
    method HandleEdit(loan: Loan)
      requires Valid()
      modifies this`form, this`editingId
      ensures Valid()
      ensures form == EditForm(loan) && editingId == EditingIdFor(loan)
    {
      form := EditForm(loan);
      editingId := EditingIdFor(loan);
    }

    /** "Batal Edit": stop editing and blank the form. */
    method CancelEdit()
      requires Valid()
      modifies this`form, this`editingId
      ensures Valid()
      ensures editingId == None && form == EmptyForm(DisplayName(currentUser))
    {
      editingId := None;
      ResetForm();
    }

    /** `handleDelete(id)`: no request for a missing or zero id or a declined confirmation; refetch only on an ok reply. */
    method HandleDelete(id: Option<int>, confirmed: bool, res: Reply, list: ListReply, statsReply: StatsReply)
      requires Valid()
      modifies this, session
      ensures Valid()
      ensures !IdTruthy(id) || !confirmed ==> Untouched() && alerts == old(alerts)
      ensures IdTruthy(id) && confirmed ==>
        requests == old(requests) + [Request(DeleteLoan(id.value), old(session.GetAuthHeader()))]
                    + (if IsOk(res) then Refetches(old(session.GetAuthHeader())) else [])
      ensures IdTruthy(id) && confirmed && !IsOk(res) ==>
        && State() == old(State())
        && session.user == old(session.user) && redirectedToLogin == old(redirectedToLogin)
        && alerts == old(alerts) + (if res.Reply? then [DeleteFailedMessage] else [])
      ensures IdTruthy(id) && confirmed && IsOk(res) ==>
        RefetchedFrom(old(State()), list, statsReply) && alerts == old(alerts) + [DeletedMessage]
    {
      if !IdTruthy(id) || !confirmed {
        return;
      }
      requests := requests + [Request(DeleteLoan(id.value), session.GetAuthHeader())];
      if res.NetworkError? {
        return;
      }
      if !IsOk(res) {
        alerts := alerts + [DeleteFailedMessage];
        return;
      }
      Succeed(DeletedMessage, list, statsReply);
    }

    /** The Approve button: select the loan, prefill the admin name, open the dialog. */
    method OpenApprove(loan: Loan)
      requires Valid()
      modifies this`selectedLoan, this`adminName, this`showApproveModal
      ensures Valid()
      ensures selectedLoan == Some(loan) && adminName == DisplayName(currentUser) && showApproveModal
    {
      selectedLoan := Some(loan);
      adminName := DisplayName(currentUser);
      showApproveModal := true;
    }

    /** The Reject button: select the loan, prefill the admin name, open the dialog. */
    method OpenReject(loan: Loan)
      requires Valid()
      modifies this`selectedLoan, this`adminName, this`showRejectModal
      ensures Valid()
      ensures selectedLoan == Some(loan) && adminName == DisplayName(currentUser) && showRejectModal
    {
      selectedLoan := Some(loan);
      adminName := DisplayName(currentUser);
      showRejectModal := true;
    }

    /** Typing into the dialogs' admin-name and notes inputs. */
    method SetDecisionInputs(name: string, note: string)
      requires Valid()
      modifies this`adminName, this`notes
      ensures Valid()
      ensures adminName == name && notes == note
    {
      adminName, notes := name, note;
    }

    /** The guard both dialogs share: a selected loan and a non-blank admin name. */
    predicate CanDecide()
      reads this
    {
      selectedLoan.Some? && !Text.IsBlank(adminName)
    }

    /**
     * The request of an approve or reject that passed its guards, and what
     * follows: nothing on a missing reply (the promise rejects), an alert
     * on a non-ok reply, and on an ok reply the dialog closed, the notes
     * and the selection cleared, and both refetches.
     */
    method Decide(approve: bool, res: Reply, list: ListReply, statsReply: StatsReply)
      requires Valid() && CanDecide()
      modifies this, session
      ensures Valid()
      ensures requests == old(requests)
                          + [Request(if approve then ApproveLoan(old(selectedLoan).value.id, old(adminName), old(notes))
                                     else RejectLoan(old(selectedLoan).value.id, old(adminName), old(notes)),
                                     old(session.GetAuthHeader()))]
                          + (if IsOk(res) then Refetches(old(session.GetAuthHeader())) else [])
      ensures !IsOk(res) ==>
        && State() == old(State())
        && session.user == old(session.user) && redirectedToLogin == old(redirectedToLogin)
        && alerts == old(alerts)
                     + (if res.Reply? then [OrElse(res.message, if approve then "Gagal approve" else "Gagal reject")] else [])
      ensures IsOk(res) ==>
        && RefetchedFrom(Closed(old(State()), approve), list, statsReply)
        && alerts == old(alerts) + [if approve then ApprovedMessage else RejectedMessage]
    {
      var call := if approve then ApproveLoan(selectedLoan.value.id, adminName, notes)
                  else RejectLoan(selectedLoan.value.id, adminName, notes);
      requests := requests + [Request(call, session.GetAuthHeader())];
      if !IsOk(res) {
        if res.Reply? {
          alerts := alerts + [OrElse(res.message, if approve then "Gagal approve" else "Gagal reject")];
        }
        return;
      }
      Decided(approve, list, statsReply);
    }

    /** An ok reply to an approve or reject: the dialog closed, the notes and the selection cleared, the alert, both refetches. */
    method Decided(approve: bool, list: ListReply, statsReply: StatsReply)
      requires Valid()
      modifies this, session
      ensures Valid()
      ensures requests == old(requests) + Refetches(old(session.GetAuthHeader()))
      ensures RefetchedFrom(Closed(old(State()), approve), list, statsReply)
      ensures alerts == old(alerts) + [if approve then ApprovedMessage else RejectedMessage]
    {
      if approve {
        showApproveModal := false;
      } else {
        showRejectModal := false;
      }
      notes := "";
      selectedLoan := None;
      assert State() == Closed(old(State()), approve);
      Succeed(if approve then ApprovedMessage else RejectedMessage, list, statsReply);
    }

    /** `handleApprove`: needs a selected loan and a non-blank admin name; only an ok reply closes the dialog and refetches. */
    method HandleApprove(res: Reply, list: ListReply, statsReply: StatsReply)
      requires Valid()
      modifies this, session
      ensures Valid()
      ensures !old(CanDecide()) ==> Untouched() && alerts == old(alerts) + [AdminNameMissingMessage]
      ensures old(CanDecide()) ==>
        requests == old(requests)
                    + [Request(ApproveLoan(old(selectedLoan).value.id, old(adminName), old(notes)), old(session.GetAuthHeader()))]
                    + (if IsOk(res) then Refetches(old(session.GetAuthHeader())) else [])
      ensures old(CanDecide()) && !IsOk(res) ==>
        && State() == old(State())
        && session.user == old(session.user) && redirectedToLogin == old(redirectedToLogin)
        && alerts == old(alerts) + (if res.Reply? then [OrElse(res.message, "Gagal approve")] else [])
      ensures old(CanDecide()) && IsOk(res) ==>
        && RefetchedFrom(old(State()).(showApproveModal := false, notes := "", selectedLoan := None), list, statsReply)
        && alerts == old(alerts) + [ApprovedMessage]
    {
      if !CanDecide() {
        alerts := alerts + [AdminNameMissingMessage];
        return;
      }
      Decide(true, res, list, statsReply);
    }

    /** `handleReject`: the approve guard, then non-blank notes (the reason); only an ok reply closes the dialog and refetches. */
    method HandleReject(res: Reply, list: ListReply, statsReply: StatsReply)
      requires Valid()
      modifies this, session
      ensures Valid()
      ensures !old(CanDecide()) ==> Untouched() && alerts == old(alerts) + [AdminNameMissingMessage]
      ensures old(CanDecide()) && Text.IsBlank(old(notes)) ==>
        Untouched() && alerts == old(alerts) + [ReasonMissingMessage]
      ensures old(CanDecide()) && !Text.IsBlank(old(notes)) ==>
        requests == old(requests)
                    + [Request(RejectLoan(old(selectedLoan).value.id, old(adminName), old(notes)), old(session.GetAuthHeader()))]
                    + (if IsOk(res) then Refetches(old(session.GetAuthHeader())) else [])
      ensures old(CanDecide()) && !Text.IsBlank(old(notes)) && !IsOk(res) ==>
        && State() == old(State())
        && session.user == old(session.user) && redirectedToLogin == old(redirectedToLogin)
        && alerts == old(alerts) + (if res.Reply? then [OrElse(res.message, "Gagal reject")] else [])
      ensures old(CanDecide()) && !Text.IsBlank(old(notes)) && IsOk(res) ==>
        && RefetchedFrom(old(State()).(showRejectModal := false, notes := "", selectedLoan := None), list, statsReply)
        && alerts == old(alerts) + [RejectedMessage]
    {
      if !CanDecide() {
        alerts := alerts + [AdminNameMissingMessage];
        return;
      }
      if Text.IsBlank(notes) {
        alerts := alerts + [ReasonMissingMessage];
        return;
      }
      Decide(false, res, list, statsReply);
    }

    /** A dialog's "Batal": that dialog closes and the notes are cleared; the admin name is kept. */
    method CancelDecision(approve: bool)
      requires Valid()
      modifies this`showApproveModal, this`showRejectModal, this`notes
      ensures Valid()
      ensures approve ==> !showApproveModal && showRejectModal == old(showRejectModal)
      ensures !approve ==> !showRejectModal && showApproveModal == old(showApproveModal)
      ensures notes == ""
    {
      if approve {
        showApproveModal := false;
      } else {
        showRejectModal := false;
      }
      notes := "";
    }

    /** A click on a dialog's backdrop: that dialog closes and nothing else changes. */
    method DismissDecision(approve: bool)
      requires Valid()
      modifies this`showApproveModal, this`showRejectModal
      ensures Valid()
      ensures approve ==> !showApproveModal && showRejectModal == old(showRejectModal)
      ensures !approve ==> !showRejectModal && showApproveModal == old(showApproveModal)
    {
      if approve {
        showApproveModal := false;
      } else {
        showRejectModal := false;
      }
    }

    /** `handleLogout()`: once confirmed, empty the session slot and go to the login page. */
    method HandleLogout(confirmed: bool)
      requires Valid()
      modifies this`redirectedToLogin, session
      ensures Valid()
      ensures confirmed ==> session.user == None && redirectedToLogin
      ensures !confirmed ==> session.user == old(session.user) && redirectedToLogin == old(redirectedToLogin)
    {
      if confirmed {
        SignOut();
      }
    }

    /** The "Detail" button: select the loan and open the detail dialog. */
    method OpenDetail(loan: Loan)
      requires Valid()
      modifies this`selectedLoan, this`showDetailModal
      ensures Valid()
      ensures selectedLoan == Some(loan) && showDetailModal
    {
      selectedLoan := Some(loan);
      showDetailModal := true;
    }

    /** The detail dialog's "Tutup" button or its backdrop: close it, keeping the selection. */
    method CloseDetail()
      requires Valid()
      modifies this`showDetailModal
      ensures Valid()
      ensures !showDetailModal
    {
      showDetailModal := false;
    }
  }
}
