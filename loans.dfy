/**
 * The loan record shared by both loan views, the replies the REST service
 * sends back, the entries of the request log, and the form logic both
 * views share: the submit validation, the edit copy and the request a
 * submit issues.
 */
module Loans {
  import opened Wrappers
  import Text

  /** One room-loan record (`RoomLoan`). Optional keys are `Option`s. */
  datatype Loan = Loan(
    id: Option<int>,
    borrowerName: string,
    roomName: string,
    purpose: string,
    date: string,
    status: string,
    startTime: Option<string>,
    endTime: Option<string>,
    approvedBy: Option<string>,
    approvedAt: Option<string>,
    rejectedBy: Option<string>,
    rejectedAt: Option<string>,
    notes: Option<string>)

  /** Server-computed counters, displayed as they come. */
  datatype Statistics = Statistics(total: int, pending: int, approved: int, rejected: int)

  /** JavaScript truthiness of an optional numeric id: present and not 0. */
  predicate IdTruthy(id: Option<int>) {
    id.Some? && id.value != 0
  }

  /** JavaScript truthiness of an optional string: present and not empty. */
  predicate Filled(s: Option<string>) {
    s.Some? && s.value != ""
  }

  /** `a || fallback` on strings: `a` wins when it is set, and the result is empty only when both are. */
  function OrElse(a: string, fallback: string): (r: string)
    ensures r == a || r == fallback
    ensures a != "" ==> r == a
    ensures r == "" <==> a == "" && fallback == ""
  {
    if a != "" then a else fallback
  }

  // ---- Replies of the REST service -------------------------------------

  /**
   * The reply to a mutating request: a status and the body's `message` ("" when absent), or
   * no usable reply at all. A reply whose body is not JSON (an empty 403, say) makes
   * `res.json()` throw, so it is given as `NetworkError`, not as `Reply(status, "")`.
   */
  datatype Reply = Reply(status: int, message: string) | NetworkError

  /** `res.ok`: a reply with a 2xx status. */
  predicate IsOk(r: Reply) {
    r.Reply? && 200 <= r.status <= 299
  }

  /** The reply to the list refetch: a status and the decoded list, or no reply. */
  datatype ListReply = ListReply(status: int, body: seq<Loan>) | ListNetworkError

  /** The reply to the statistics refetch. */
  datatype StatsReply = StatsReply(status: int, body: Statistics) | StatsNetworkError

  // ---- The request log ---------------------------------------------------

  /** One REST call, by verb and path, with the body it carries. */
  datatype Call =
    | ListLoans                                            // GET    /api/RoomLoans
    | LoanStatistics                                       // GET    /api/RoomLoans/statistics
    | CreateLoan(body: Loan)                               // POST   /api/RoomLoans
    | UpdateLoan(id: int, body: Loan)                      // PUT    /api/RoomLoans/{id}
    | DeleteLoan(id: int)                                  // DELETE /api/RoomLoans/{id}
    | ApproveLoan(loanId: Option<int>, updatedBy: string, note: string)  // PUT /api/RoomLoans/{id}/approve
    | RejectLoan(loanId: Option<int>, updatedBy: string, note: string)   // PUT /api/RoomLoans/{id}/reject

  /** A request as issued: the call and the headers from `getAuthHeader` (empty for the legacy view). */
  datatype Request = Request(call: Call, auth: map<string, string>)

  /** The two refetches `fetchLoans(); fetchStats();` issue, both with the header current when they start. */
  function Refetches(auth: map<string, string>): seq<Request> {
    [Request(ListLoans, auth), Request(LoanStatistics, auth)]
  }

  // ---- The loan form ----------------------------------------------------

  const MissingFieldsMessage := "Semua field wajib diisi!"
  const InvertedTimesMessage := "Waktu selesai harus lebih besar dari waktu mulai!"

  /** The blank form, with the given borrower name prefilled. */
  function EmptyForm(borrowerName: string): Loan {
    Loan(None, borrowerName, "", "", "", "Pending", Some(""), Some(""),
         None, None, None, None, None)
  }

  predicate HasRequiredFields(f: Loan) {
    f.borrowerName != "" && f.roomName != "" && f.purpose != ""
  }

  /**
   * Both times are set and the start is not before the end. The views
   * compare `new Date(...)` values; for the fixed-width local date-time
   * strings the form produces, that is the lexicographic order.
   */
  predicate TimesInverted(f: Loan) {
    Filled(f.startTime) && Filled(f.endTime) && !Text.LexLess(f.startTime.value, f.endTime.value)
  }

  /** The submit guards, in order: the message of the first that fails, if any. */
  function SubmitError(f: Loan): (r: Option<string>)
    ensures r.None? <==> HasRequiredFields(f) && !TimesInverted(f)
    ensures !HasRequiredFields(f) ==> r == Some(MissingFieldsMessage)
    ensures HasRequiredFields(f) && TimesInverted(f) ==> r == Some(InvertedTimesMessage)
  {
    if !HasRequiredFields(f) then Some(MissingFieldsMessage)
    else if TimesInverted(f) then Some(InvertedTimesMessage)
    else None
  }

  /** A start of 10:00 and an end of 09:00 on the same day is refused before any request. */
  lemma EndBeforeStartRefused(f: Loan)
    requires HasRequiredFields(f)
    requires f.startTime == Some("2024-01-01T10:00") && f.endTime == Some("2024-01-01T09:00")
    ensures SubmitError(f) == Some(InvertedTimesMessage)
  {
    var a, b := "2024-01-01T10:00", "2024-01-01T09:00";
    assert a[..11] == b[..11] && a[11] == '1' && b[11] == '0';
    assert !Text.LexLess(a, b) by { LexLessAtFirstDifference(a, b, 11); }
  }

  /**
   * The time test refuses equal times, and of a pair of distinct times
   * at most one order is accepted: a form whose start precedes its end
   * is refused once the two times are swapped.
   */
  lemma SwappedTimesRefused(f: Loan)
    requires HasRequiredFields(f) && Filled(f.startTime) && Filled(f.endTime)
    ensures f.startTime == f.endTime ==> SubmitError(f) == Some(InvertedTimesMessage)
    ensures Text.LexLess(f.startTime.value, f.endTime.value) ==>
      SubmitError(f.(startTime := f.endTime, endTime := f.startTime)) == Some(InvertedTimesMessage)
  {
    Text.LexLessAsymmetric(f.startTime.value, f.endTime.value);
  }

  /** Strings equal up to `k` and differing at `k` are ordered by their characters at `k`. */
  lemma {:induction false} LexLessAtFirstDifference(a: string, b: string, k: nat)
    requires k < |a| && k < |b| && a[..k] == b[..k] && a[k] != b[k]
    ensures Text.LexLess(a, b) <==> a[k] < b[k]
    decreases k
  {
    if k > 0 {
      assert a[0] == a[..k][0] == b[..k][0] == b[0];
      assert a[1..][..k - 1] == a[1..k] == a[..k][1..];
      assert b[1..][..k - 1] == b[1..k] == b[..k][1..];
      LexLessAtFirstDifference(a[1..], b[1..], k - 1);
    }
  }

  /** The form inputs a user types into. */
  datatype FormField = BorrowerField | RoomField | PurposeField | StartField | EndField

  /** `setForm({ ...form, [field]: value })`. */
  function WithField(form: Loan, field: FormField, value: string): (f: Loan)
    ensures f.id == form.id
  {
    match field
    case BorrowerField => form.(borrowerName := value)
    case RoomField => form.(roomName := value)
    case PurposeField => form.(purpose := value)
    case StartField => form.(startTime := Some(value))
    case EndField => form.(endTime := Some(value))
  }

  /** `(t?.slice(0, 16)) || ""`. */
  function TimePrefix(t: Option<string>): (r: string)
    ensures |r| <= 16
    ensures t.None? ==> r == ""
    ensures t.Some? ==> Text.IsPrefix(r, t.value) && |r| == if |t.value| <= 16 then |t.value| else 16
  {
    if t.Some? then Text.Take(t.value, 16) else ""
  }

  /** The form `handleEdit` fills from a loan: the loan, with both times cut to minutes. */
  function EditForm(loan: Loan): (f: Loan)
    ensures f.(startTime := loan.startTime, endTime := loan.endTime) == loan
    ensures f.startTime == Some(TimePrefix(loan.startTime))
    ensures f.endTime == Some(TimePrefix(loan.endTime))
  {
    loan.(startTime := Some(TimePrefix(loan.startTime)), endTime := Some(TimePrefix(loan.endTime)))
  }

  /** `loan.id || null`: the id `handleEdit` starts editing. */
  function EditingIdFor(loan: Loan): (r: Option<int>)
    ensures r.Some? <==> IdTruthy(loan.id)
    ensures r.Some? ==> r == loan.id
  {
    if IdTruthy(loan.id) then loan.id else None
  }

  /** The body `{ id: editingId, ...form }`: the form's own `id` key wins when present. */
  function UpdateBody(id: int, form: Loan): (b: Loan)
    ensures b.(id := form.id) == form
    ensures form.id.Some? ==> b == form
    ensures form.id.None? ==> b.id == Some(id)
  {
    if form.id.Some? then form else form.(id := Some(id))
  }

  /** The request a valid submit issues: PUT for a truthy `editingId`, POST otherwise. */
  function SubmitCall(editingId: Option<int>, form: Loan): (c: Call)
    ensures c.UpdateLoan? <==> IdTruthy(editingId)
    ensures c.UpdateLoan? ==> c.id == editingId.value && c.body.(id := form.id) == form
    ensures c.UpdateLoan? && form.id.Some? ==> c.body == form
    ensures c.UpdateLoan? && form.id.None? ==> c.body.id == Some(c.id)
    ensures c.CreateLoan? ==> c.body == form
  {
    if IdTruthy(editingId) then UpdateLoan(editingId.value, UpdateBody(editingId.value, form))
    else CreateLoan(form)
  }

  /** After `handleEdit`, the editing id is the form's own id and is truthy. */
  predicate EditorConsistent(form: Loan, editingId: Option<int>) {
    editingId.Some? ==> editingId.value != 0 && form.id == editingId
  }

  /** The edit copy of a loan is consistent with the id `handleEdit` sets, so an update sends the loan's own id. */
  lemma EditKeepsEditorConsistent(loan: Loan)
    ensures EditorConsistent(EditForm(loan), EditingIdFor(loan))
    ensures IdTruthy(EditingIdFor(loan)) ==>
      SubmitCall(EditingIdFor(loan), EditForm(loan)) == UpdateLoan(loan.id.value, EditForm(loan))
  {
  }
}
