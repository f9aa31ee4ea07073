/** Option and Result types, and sums over the rows of a table. */
module Prelude {

  datatype Option<+T> = None | Some(value: T)

  /** A transaction either commits with a value or throws the named error and rolls back. */
  datatype Result<+T> = Ok(value: T) | Err(error: Error)

  /** Why a commission cannot be settled. */
  datatype Blocker =
    | AddLiveTagCheckoutRequired
    | ProviderCommissionNotPaid
    | VerifyAccountFirst
    | OpenReconciliationIssues
    | CrossProvider
    | CommissionNotValidated
    | NoAttributedUser
    | AlreadyInSettlement

  /** The messages of the exceptions the services throw. */
  datatype Error =
    | AcceptedAmountExceedsReported
    | ApprovedBankRequired
    | AttributionAndAmountRequired
    | AttributionConflict
    | CommissionChangedResyncRequired
    | CommissionRevisionChanged
    | CommissionsNotEligible
    | ConfirmedSettlementIsImmutable
    | CredentialChanged
    | DuplicateCommissionMustBeExcludedFirst
    | DuplicatePage
    | GrossDiffersFromValidatedCommission
    | IdempotencyKeyReused
    | IncompletePagination
    | InsufficientAvailableBalance
    | InvalidAllocation
    | InvalidAttribution
    | InvalidCashback
    | InvalidDateRange
    | InvalidInput
    | InvalidReservedBalance
    | InvalidWithdrawalTransition
    | IssueAlreadyResolved
    | IssueNotFound
    | MinimumWithdrawalNotMet
    | NotFound
    | PaginationCountMismatch
    | PaginationTotalChanged
    | ProviderBlocked(blocker: Blocker)
    | ProviderCommissionNotVerified
    | ProviderCommissionRejected
    | ProviderFailure
    | ProviderIdentityOrStatusMismatch
    | ProviderStatusNotEligible
    | ReferenceTaken
    | RowOutsideDateRange
    | SettlementDisabled
    | SettlementNotDraft
    | SettlementNotFound
    | SettlementTotalsMismatch
    | SettlementUnbalanced
    | SourceChangedResyncRequired
    | SummaryCommissionMismatch
    | UseAuditedWalletAdjustment
    | VerifyAccountAndVndFirst
    | WalletHasClawbackDebt
    | WithdrawalNotFound
    | WithdrawalsDisabled
    | WorkerLeaseLost

  /** The total of `f` over a table. */
  function Sum<T>(s: seq<T>, f: T -> int): int
  {
    if |s| == 0 then 0 else Sum(s[..|s| - 1], f) + f(s[|s| - 1])
  }

  lemma SumAppend<T>(s: seq<T>, x: T, f: T -> int)
    ensures Sum(s + [x], f) == Sum(s, f) + f(x)
  {
    assert (s + [x])[..|s|] == s;
  }

  lemma {:induction false} SumUpdate<T>(s: seq<T>, i: nat, x: T, f: T -> int)
    requires i < |s|
    ensures Sum(s[i := x], f) == Sum(s, f) - f(s[i]) + f(x)
    decreases |s|
  {
    var n := |s| - 1;
    if i == n {
      assert s[i := x][..n] == s[..n];
    } else {
      assert s[i := x][..n] == s[..n][i := x];
      SumUpdate(s[..n], i, x, f);
    }
  }

  lemma {:induction false} SumConcat<T>(s: seq<T>, t: seq<T>, f: T -> int)
    ensures Sum(s + t, f) == Sum(s, f) + Sum(t, f)
    decreases |t|
  {
    if |t| == 0 {
      assert s + t == s;
    } else {
      var n := |t| - 1;
      assert (s + t)[..|s + t| - 1] == s + t[..n];
      SumConcat(s, t[..n], f);
    }
  }

  /** Two tables with row-by-row equal weights have the same total. */
  lemma {:induction false} SumCongruent<T, U>(s: seq<T>, t: seq<U>, f: T -> int, g: U -> int)
    requires |s| == |t|
    requires forall i :: 0 <= i < |s| ==> f(s[i]) == g(t[i])
    ensures Sum(s, f) == Sum(t, g)
    decreases |s|
  {
    if |s| > 0 {
      SumCongruent(s[..|s| - 1], t[..|t| - 1], f, g);
    }
  }

  lemma {:induction false} SumMonotone<T>(s: seq<T>, f: T -> int, g: T -> int)
    requires forall i :: 0 <= i < |s| ==> f(s[i]) <= g(s[i])
    ensures Sum(s, f) <= Sum(s, g)
    decreases |s|
  {
    if |s| > 0 {
      SumMonotone(s[..|s| - 1], f, g);
    }
  }

  /** The total of a sum of weights is the sum of the totals. */
  lemma {:induction false} SumPlus<T>(s: seq<T>, f: T -> int, g: T -> int, h: T -> int)
    requires forall i :: 0 <= i < |s| ==> h(s[i]) == f(s[i]) + g(s[i])
    ensures Sum(s, h) == Sum(s, f) + Sum(s, g)
    decreases |s|
  {
    if |s| > 0 {
      SumPlus(s[..|s| - 1], f, g, h);
    }
  }

  /** Totals depend on the rows as a multiset only. */
  lemma {:induction false} SumPermutation<T>(s: seq<T>, t: seq<T>, f: T -> int)
    requires multiset(s) == multiset(t)
    ensures Sum(s, f) == Sum(t, f)
    decreases |s|
  {
    if |s| == 0 {
      assert |multiset(t)| == 0;
    } else {
      var n := |s| - 1;
      var x := s[n];
      assert s == s[..n] + [x];
      assert x in multiset(t);
      var k :| 0 <= k < |t| && t[k] == x;
      var rest := t[..k] + t[k + 1..];
      assert t == t[..k] + [x] + t[k + 1..];
      assert multiset(s[..n]) == multiset(s) - multiset{x} == multiset(rest);
      SumPermutation(s[..n], rest, f);
      SumConcat(t[..k], t[k + 1..], f);
      SumConcat(t[..k] + [x], t[k + 1..], f);
      SumAppend(t[..k], x, f);
    }
  }

  /** An ordered set: JavaScript's `Set` keeps insertion order. */
  function Add<T(==,!new)>(s: seq<T>, x: T): (r: seq<T>)
    ensures forall y :: y in r <==> y in s || y == x
    ensures Distinct(s) ==> Distinct(r)
  {
    if x in s then s else s + [x]
  }

  function AddIf<T(==,!new)>(s: seq<T>, condition: bool, x: T): (r: seq<T>)
    ensures forall y :: y in r <==> y in s || (condition && y == x)
    ensures Distinct(s) ==> Distinct(r)
  {
    if condition then Add(s, x) else s
  }

  ghost predicate Distinct<T>(s: seq<T>) {
    forall i, j :: 0 <= i < j < |s| ==> s[i] != s[j]
  }
}
