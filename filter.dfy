/**
 * The filter effect of both loan views: the loan list narrowed by a status
 * (equal, ignoring case), a room substring and a borrower substring (both
 * contained, ignoring case), each skipped when its string is empty. The
 * dashboard applies the borrower pass for administrators only; the legacy
 * view always does. `borrowerEnabled` is that difference.
 */
module LoanFilter {
  import Text
  import opened Loans

  /** `s.filter(keep)`. */
  function FilterBy(s: seq<Loan>, keep: Loan -> bool): (r: seq<Loan>)
    ensures |r| <= |s|
    ensures forall x :: x in r <==> x in s && keep(x)
    ensures IsSubsequence(r, s)
  {
    if s == [] then []
    else if keep(s[0]) then [s[0]] + FilterBy(s[1..], keep)
    else FilterBy(s[1..], keep)
  }

  /** `a` is `b` with some elements left out, in the same order. */
  predicate IsSubsequence(a: seq<Loan>, b: seq<Loan>)
    decreases |b|
  {
    a == [] || (b != [] && ((a[0] == b[0] && IsSubsequence(a[1..], b[1..])) || IsSubsequence(a, b[1..])))
  }

  predicate StatusMatches(l: Loan, status: string) {
    Text.EqualsIgnoringCase(l.status, status)
  }

  predicate RoomMatches(l: Loan, room: string) {
    Text.ContainsIgnoringCase(l.roomName, room)
  }

  predicate BorrowerMatches(l: Loan, borrower: string) {
    Text.ContainsIgnoringCase(l.borrowerName, borrower)
  }

  /** The filter effect: up to three successive passes over a copy of `loans`. */
  function View(loans: seq<Loan>, status: string, room: string, borrower: string, borrowerEnabled: bool): (r: seq<Loan>)
    ensures |r| <= |loans| && forall l :: l in r ==> l in loans
    ensures status == "" && room == "" && (borrower == "" || !borrowerEnabled) ==> r == loans
  {
    var f0 := loans;
    var f1 := if status != "" then FilterBy(f0, l => StatusMatches(l, status)) else f0;
    var f2 := if room != "" then FilterBy(f1, l => RoomMatches(l, room)) else f1;
    if borrower != "" && borrowerEnabled then FilterBy(f2, l => BorrowerMatches(l, borrower)) else f2
  }

  /** The condition one loan must meet to be shown: an empty filter string constrains nothing. */
  predicate Matches(l: Loan, status: string, room: string, borrower: string, borrowerEnabled: bool) {
    && (status == "" || StatusMatches(l, status))
    && (room == "" || RoomMatches(l, room))
    && (borrower == "" || !borrowerEnabled || BorrowerMatches(l, borrower))
  }

  // ---- Facts about FilterBy ---------------------------------------------

  /** `filter` drops no copy of a passing element: each keeps its number of occurrences, and a failing one has none. */
  lemma {:induction false} FilterByCounts(s: seq<Loan>, keep: Loan -> bool)
    ensures forall x :: multiset(FilterBy(s, keep))[x] == if keep(x) then multiset(s)[x] else 0
  {
    if s != [] {
      FilterByCounts(s[1..], keep);
      assert s == [s[0]] + s[1..];
      assert multiset(s) == multiset{s[0]} + multiset(s[1..]);
      if keep(s[0]) {
        var rest := FilterBy(s[1..], keep);
        assert multiset([s[0]] + rest) == multiset{s[0]} + multiset(rest);
      }
    }
  }

  /** Two passes are one pass with the conjunction. */
  lemma {:induction false} FilterByTwice(s: seq<Loan>, p: Loan -> bool, q: Loan -> bool, pq: Loan -> bool)
    requires forall x :: pq(x) == (p(x) && q(x))
    ensures FilterBy(FilterBy(s, p), q) == FilterBy(s, pq)
  {
    if s != [] {
      FilterByTwice(s[1..], p, q, pq);
      if p(s[0]) {
        var t := [s[0]] + FilterBy(s[1..], p);
        assert t[0] == s[0] && t[1..] == FilterBy(s[1..], p);
      }
    }
  }

  /** Filtering by a condition every element meets changes nothing, and conversely. */
  lemma {:induction false} FilterByIdentityIff(s: seq<Loan>, keep: Loan -> bool)
    ensures FilterBy(s, keep) == s <==> forall x :: x in s ==> keep(x)
  {
    if s != [] {
      FilterByIdentityIff(s[1..], keep);
      if forall x :: x in s ==> keep(x) {
        assert forall x :: x in s[1..] ==> x in s;
        assert s == [s[0]] + s[1..];
      }
    }
  }

  /** Whether a pass is skipped or run, the result is one filter by `!active || keep`. */
  lemma GuardedPass(s: seq<Loan>, active: bool, keep: Loan -> bool, guarded: Loan -> bool)
    requires forall x :: guarded(x) == (!active || keep(x))
    ensures (if active then FilterBy(s, keep) else s) == FilterBy(s, guarded)
  {
    if active {
      FilterByTwice(s, guarded, guarded, keep);
      FilterByIdentityIff(FilterBy(s, guarded), guarded);
    } else {
      FilterByIdentityIff(s, guarded);
    }
  }

  // ---- Facts about the filter effect --------------------------------------

  /** The three passes keep exactly the loans that match, in their original order. */
  lemma ViewIsSinglePass(loans: seq<Loan>, status: string, room: string, borrower: string, borrowerEnabled: bool)
    ensures View(loans, status, room, borrower, borrowerEnabled)
         == FilterBy(loans, l => Matches(l, status, room, borrower, borrowerEnabled))
  {
    var ps := l => status == "" || StatusMatches(l, status);
    var pr := l => room == "" || RoomMatches(l, room);
    var pb := l => borrower == "" || !borrowerEnabled || BorrowerMatches(l, borrower);
    var psr := l => ps(l) && pr(l);
    var f1 := if status != "" then FilterBy(loans, l => StatusMatches(l, status)) else loans;
    GuardedPass(loans, status != "", l => StatusMatches(l, status), ps);
    var f2 := if room != "" then FilterBy(f1, l => RoomMatches(l, room)) else f1;
    GuardedPass(f1, room != "", l => RoomMatches(l, room), pr);
    FilterByTwice(loans, ps, pr, psr);
    GuardedPass(f2, borrower != "" && borrowerEnabled, l => BorrowerMatches(l, borrower), pb);
    FilterByTwice(loans, psr, pb, l => Matches(l, status, room, borrower, borrowerEnabled));
  }

  /** The visible list is an order-preserving subsequence of `loans` holding exactly the matching loans. */
  lemma ViewSpec(loans: seq<Loan>, status: string, room: string, borrower: string, borrowerEnabled: bool)
    ensures IsSubsequence(View(loans, status, room, borrower, borrowerEnabled), loans)
    ensures forall l :: l in View(loans, status, room, borrower, borrowerEnabled)
                    <==> l in loans && Matches(l, status, room, borrower, borrowerEnabled)
    ensures forall l :: multiset(View(loans, status, room, borrower, borrowerEnabled))[l]
                     == if Matches(l, status, room, borrower, borrowerEnabled) then multiset(loans)[l] else 0
  {
    ViewIsSinglePass(loans, status, room, borrower, borrowerEnabled);
    FilterByCounts(loans, l => Matches(l, status, room, borrower, borrowerEnabled));
  }

  /** The visible list is the whole list exactly when every loan matches. */
  lemma ViewIsAllIff(loans: seq<Loan>, status: string, room: string, borrower: string, borrowerEnabled: bool)
    ensures View(loans, status, room, borrower, borrowerEnabled) == loans
        <==> forall l :: l in loans ==> Matches(l, status, room, borrower, borrowerEnabled)
  {
    ViewIsSinglePass(loans, status, room, borrower, borrowerEnabled);
    FilterByIdentityIff(loans, l => Matches(l, status, room, borrower, borrowerEnabled));
  }

  /** With every filter string empty (after "Reset Filter"), the whole list is shown. */
  lemma NoFiltersShowsAll(loans: seq<Loan>, borrowerEnabled: bool)
    ensures View(loans, "", "", "", borrowerEnabled) == loans
  {
  }

  /** When the borrower pass is disabled, the borrower search string has no effect at all. */
  lemma DisabledBorrowerIgnored(loans: seq<Loan>, status: string, room: string, borrower: string)
    ensures View(loans, status, room, borrower, false) == View(loans, status, room, "", false)
    ensures View(loans, "", "", borrower, false) == loans
  {
  }

  /**
   * The room guard is redundant: an empty room string matches every loan,
   * because every string contains "". (The status guard is not: only an
   * empty status equals "".)
   */
  lemma EmptyRoomMatchesAll(l: Loan)
    ensures RoomMatches(l, "")
  {
    Text.ContainsEmpty(Text.Lower(l.roomName));
  }
}
