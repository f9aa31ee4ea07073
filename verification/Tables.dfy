/**
 * The shared database as a value. A table is a sequence and a row's id is its position: rows are never
 * deleted, except settlement items, which are stored inside their batch. A commission and its cashback
 * allocation are one-to-one with their checkout (unique foreign keys) and are stored inside it, so a
 * commission's id is its checkout's position.
 */
module Tables {
  import opened Prelude
  import opened Contract
  import opened Digests
  import opened Money
  import opened Inspection
  import opened Attribution
  import opened Wallets

  datatype CommissionState = Estimated | Validated | Paid | Rejected | Reversed | ManualReview

  datatype CashbackState =
    | CashbackPending
    | CashbackValidated
    | CashbackAvailable
    | CashbackRejected
    | CashbackReversed

  /** A share in basis points; the policy schema allows at most 10000. */
  type Bps = b: nat | b <= FULL_BPS

  datatype Cashback = Cashback(userBps: Bps, userAmount: nat, platformAmount: nat, state: CashbackState)

  datatype Commission = Commission(
    user: Option<UserId>,
    link: Option<string>,
    state: CommissionState,
    rawAmount: nat,
    estimatedVnd: nat,
    settledVnd: nat,
    cashback: Option<Cashback>)

  /** A checkout row; (provider, checkoutId) is unique. */
  datatype Checkout = Checkout(
    provider: string,
    accountId: string,
    checkoutId: string,
    revision: nat,
    sourceHash: Digest,
    conversionState: Conversion,
    rawStatus: Conversion,
    netRaw: nat,
    payload: seq<Item>,
    commission: Commission)

  datatype Issue = Issue(provider: string, checkoutId: string, kind: IssueType, sourceHash: Digest, open: bool)

  datatype SettlementItem = SettlementItem(commission: nat, rawSnapshot: nat, revisionSnapshot: nat, netVnd: int)

  datatype BatchStatus = Draft | Confirmed | Cancelled

  datatype SettlementBatch = SettlementBatch(
    reference: string,
    grossVnd: nat,
    deductionVnd: nat,
    netVnd: nat,
    status: BatchStatus,
    items: seq<SettlementItem>)

  datatype WithdrawalStatus = Pending | Processing | Completed | Rejected | Failed

  /** A withdrawal row; (user, idempotencyKey) is unique. */
  datatype Withdrawal = Withdrawal(
    user: UserId,
    idempotencyKey: string,
    bankId: string,
    amount: nat,
    status: WithdrawalStatus)

  datatype Credential = Credential(
    version: nat,
    accountId: string,
    expectedAffiliate: string,
    active: bool,
    verified: bool)

  datatype Policy = Policy(userBps: Bps, minWithdrawal: nat)

  datatype Db = Db(
    checkouts: seq<Checkout>,
    issues: seq<Issue>,
    batches: seq<SettlementBatch>,
    withdrawals: seq<Withdrawal>,
    accounts: Accounts,
    credential: Option<Credential>,
    links: seq<Link>,
    policy: Option<Policy>)

  const EMPTY := Db([], [], [], [], Accounts([], []), None, [], None)

  const DEFAULT_POLICY := Policy(8000, 10000)

  /** The policy upsert. */
  function PolicyOr(policy: Option<Policy>): Policy {
    if policy.Some? then policy.value else DEFAULT_POLICY
  }

  /** The commission was credited at some time: PAID, or REVERSED afterwards. */
  predicate EverPaid(c: Commission) {
    c.state.Paid? || c.state.Reversed?
  }

  predicate SameCheckout(c: Checkout, provider: string, checkoutId: string) {
    c.provider == provider && c.checkoutId == checkoutId
  }

  function FindCheckout(checkouts: seq<Checkout>, provider: string, checkoutId: string): (r: Option<nat>)
    ensures r.Some? ==> r.value < |checkouts| && SameCheckout(checkouts[r.value], provider, checkoutId)
    ensures r.None? ==> forall i :: 0 <= i < |checkouts| ==> !SameCheckout(checkouts[i], provider, checkoutId)
  {
    if checkouts == [] then None
    else
      var n := |checkouts| - 1;
      if SameCheckout(checkouts[n], provider, checkoutId) then Some(n)
      else FindCheckout(checkouts[..n], provider, checkoutId)
  }

  /** Upsert: replace the row found, or append. */
  function Put(checkouts: seq<Checkout>, at: Option<nat>, row: Checkout): seq<Checkout>
    requires at.Some? ==> at.value < |checkouts|
  {
    if at.Some? then checkouts[at.value := row] else checkouts + [row]
  }

  predicate IssueOf(issue: Issue, provider: string, checkoutId: string) {
    issue.provider == provider && issue.checkoutId == checkoutId
  }

  predicate HasOpenIssue(issues: seq<Issue>, provider: string, checkoutId: string) {
    exists k :: 0 <= k < |issues| && issues[k].open && IssueOf(issues[k], provider, checkoutId)
  }

  /** The same external checkout is known under another provider. */
  predicate KnownElsewhere(checkouts: seq<Checkout>, provider: string, checkoutId: string) {
    exists i :: 0 <= i < |checkouts| && checkouts[i].checkoutId == checkoutId && checkouts[i].provider != provider
  }

  /** ... with a commission that is not rejected. */
  predicate ClaimedElsewhere(checkouts: seq<Checkout>, provider: string, checkoutId: string) {
    exists i :: 0 <= i < |checkouts| && checkouts[i].checkoutId == checkoutId && checkouts[i].provider != provider
      && !checkouts[i].commission.state.Rejected?
  }

  /** The commission has a settlement item. */
  predicate InSettlement(batches: seq<SettlementBatch>, commission: nat) {
    exists b :: 0 <= b < |batches|
      && exists k :: 0 <= k < |batches[b].items| && batches[b].items[k].commission == commission
  }
}
