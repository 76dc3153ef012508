/**
 * Which actions a loan's row offers, in the dashboard and in the legacy
 * view. The status test here is exact (`=== "Pending"`), unlike the
 * case-insensitive status filter.
 */
module Visibility {
  import opened Wrappers
  import opened Loans

  datatype Action = Detail | Approve | Reject | Edit | Delete

  /**
   * The dashboard's buttons: Detail for everyone; Approve and Reject for an
   * administrator on a pending loan; Edit on a pending loan for an
   * administrator or for the loan's own borrower; Delete for an administrator.
   * `currentName` is `currentUser?.fullName`.
   */
  function DashboardActions(isAdmin: bool, currentName: Option<string>, loan: Loan): (r: set<Action>)
    ensures Detail in r
    ensures Approve in r <==> isAdmin && loan.status == "Pending"
    ensures Reject in r <==> isAdmin && loan.status == "Pending"
    ensures Edit in r <==> loan.status == "Pending" && (isAdmin || currentName == Some(loan.borrowerName))
    ensures Delete in r <==> isAdmin
  {
    {Detail}
    + (if isAdmin && loan.status == "Pending" then {Approve, Reject} else {})
    + (if loan.status == "Pending" && (isAdmin || currentName == Some(loan.borrowerName)) then {Edit} else {})
    + (if isAdmin then {Delete} else {})
  }

  /** The legacy view's buttons: Approve, Reject and Edit on a pending loan; Detail and Delete always. */
  function LegacyActions(loan: Loan): (r: set<Action>)
    ensures Detail in r && Delete in r
    ensures Approve in r <==> loan.status == "Pending"
    ensures Reject in r <==> loan.status == "Pending"
    ensures Edit in r <==> loan.status == "Pending"
  {
    {Detail}
    + (if loan.status == "Pending" then {Approve, Reject, Edit} else {})
    + {Delete}
  }

  /** The dashboard never offers an action the legacy view does not, and for an administrator it offers the same. */
  lemma DashboardRestrictsLegacy(isAdmin: bool, currentName: Option<string>, loan: Loan)
    ensures DashboardActions(isAdmin, currentName, loan) <= LegacyActions(loan)
    ensures isAdmin ==> DashboardActions(isAdmin, currentName, loan) == LegacyActions(loan)
  {
  }

  /** A non-administrator sees at most Detail and Edit, and Edit only on a pending loan under their own name. */
  lemma UserActionsAreOwnEdits(currentName: Option<string>, loan: Loan)
    ensures DashboardActions(false, currentName, loan) <= {Detail, Edit}
    ensures Edit in DashboardActions(false, currentName, loan) ==>
      currentName == Some(loan.borrowerName) && loan.status == "Pending"
  {
  }

  /** A loan whose status differs from "Pending" only in case is not actionable. */
  lemma StatusTestIsCaseSensitive(isAdmin: bool, currentName: Option<string>, loan: Loan)
    requires loan.status == "pending"
    ensures DashboardActions(isAdmin, currentName, loan) <= {Detail, Delete}
    ensures LegacyActions(loan) == {Detail, Delete}
  {
  }
}
