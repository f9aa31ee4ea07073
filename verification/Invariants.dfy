/** What every reachable database satisfies, table by table. */
module Invariants {
  import opened Prelude
  import opened Text
  import opened Contract
  import opened Digests
  import opened Money
  import opened Payment
  import opened Inspection
  import opened Wallets
  import opened Tables
  import opened Settlement
  import opened Withdrawals

  // ---------- Rows ----------

  predicate WellFormedAccount(accountId: string) {
    accountId != "" && AllDigits(accountId)
  }

  /** The row is a faithful image of the rows it was published from. */
  ghost predicate SourceOk(env: Env, r: Checkout) {
    && r.provider == ProviderScope(r.accountId) && WellFormedAccount(r.accountId)
    && r.payload != []
    && r.sourceHash == DigestOf(env.json, r.payload)
    && r.netRaw == Amount(r.payload)
    && r.rawStatus == ConversionOf(r.payload)
    && r.revision >= 1
  }

  /** The cashback state that goes with a commission state. */
  function CorrespondingState(s: CommissionState): CashbackState {
    match s
    case Validated => CashbackValidated
    case Rejected => CashbackRejected
    case Estimated => CashbackPending
    case ManualReview => CashbackPending
    case Paid => CashbackAvailable
    case Reversed => CashbackReversed
  }

  /** What a cashback allocation splits: the estimate until payment, the settled amount after. */
  function Base(c: Commission): nat {
    if EverPaid(c) then c.settledVnd else c.estimatedVnd
  }

  /** Commission and cashback fit together. */
  ghost predicate Coherent(c: Commission) {
    && (c.user.Some? <==> c.cashback.Some?)
    && (EverPaid(c) || c.state.Validated? ==> c.user.Some?)
    && c.estimatedVnd <= c.rawAmount
    && (!EverPaid(c) ==> c.settledVnd == 0)
    && (c.cashback.Some? ==>
          && c.cashback.value.state == CorrespondingState(c.state)
          && SplitCashback(Base(c), c.cashback.value.userBps) ==
             Ok(Split(c.cashback.value.userAmount, c.cashback.value.platformAmount)))
  }

  ghost predicate RowOk(env: Env, r: Checkout) {
    && SourceOk(env, r)
    && Coherent(r.commission)
    && (!EverPaid(r.commission) ==> r.commission.rawAmount == r.netRaw)
    && (r.commission.state.Validated? ==> PaymentBlockers(env, r.payload) == [])
  }

  ghost predicate RowsOk(env: Env, checkouts: seq<Checkout>) {
    forall i :: 0 <= i < |checkouts| ==> RowOk(env, checkouts[i])
  }

  ghost predicate UniqueCheckouts(checkouts: seq<Checkout>) {
    forall i, j :: 0 <= i < j < |checkouts| ==>
      !SameCheckout(checkouts[i], checkouts[j].provider, checkouts[j].checkoutId)
  }

  /** At most one commission of an external checkout was ever paid, over all provider accounts. */
  ghost predicate OnePaid(checkouts: seq<Checkout>) {
    forall i, j | 0 <= i < |checkouts| && 0 <= j < |checkouts| && checkouts[i].checkoutId == checkouts[j].checkoutId ::
      EverPaid(checkouts[i].commission) && EverPaid(checkouts[j].commission) ==> i == j
  }

  // ---------- Issues ----------

  predicate Current(checkouts: seq<Checkout>, issue: Issue) {
    exists i :: 0 <= i < |checkouts| && SameCheckout(checkouts[i], issue.provider, issue.checkoutId)
      && checkouts[i].sourceHash == issue.sourceHash
  }

  /** Open issues speak of the current snapshot of their checkout. */
  ghost predicate OpenIssuesCurrent(checkouts: seq<Checkout>, issues: seq<Issue>) {
    forall k :: 0 <= k < |issues| && issues[k].open ==> Current(checkouts, issues[k])
  }

  /** An unpaid commission is under manual review exactly while its checkout has an open issue. */
  ghost predicate ReviewIffOpen(checkouts: seq<Checkout>, issues: seq<Issue>) {
    forall i :: 0 <= i < |checkouts| && !EverPaid(checkouts[i].commission) ==>
      (checkouts[i].commission.state.ManualReview? <==>
        HasOpenIssue(issues, checkouts[i].provider, checkouts[i].checkoutId))
  }

  // ---------- Money ----------

  /** What a checkout contributes to the books once it was paid. */
  datatype Stake = NoStake | Stake(
    reversed: bool,
    user: Option<UserId>,
    userAmount: nat,
    platformAmount: nat,
    settled: nat,
    estimated: nat,
    raw: nat)

  function StakeOf(r: Checkout): Stake {
    var c := r.commission;
    if EverPaid(c) && c.cashback.Some? then
      Stake(c.state.Reversed?, c.user, c.cashback.value.userAmount, c.cashback.value.platformAmount,
            c.settledVnd, c.estimatedVnd, c.rawAmount)
    else NoStake
  }

  predicate Owns(who: Option<UserId>, s: Stake) {
    s.Stake? && s.user.Some? && Concerns(who, s.user.value)
  }

  /** Cashback ever credited. */
  function CreditedTo(who: Option<UserId>): Checkout -> int {
    (r: Checkout) => if Owns(who, StakeOf(r)) then StakeOf(r).userAmount else 0
  }

  /** Cashback taken back. */
  function ReversedFrom(who: Option<UserId>): Checkout -> int {
    (r: Checkout) => if Owns(who, StakeOf(r)) && StakeOf(r).reversed then StakeOf(r).userAmount else 0
  }

  function SettledVnd(): Checkout -> int {
    (r: Checkout) => if StakeOf(r).Stake? then StakeOf(r).settled else 0
  }

  function SharesVnd(): Checkout -> int {
    (r: Checkout) => if StakeOf(r).Stake? then StakeOf(r).userAmount + StakeOf(r).platformAmount else 0
  }

  function EstimatedPaid(): Checkout -> int {
    (r: Checkout) => if StakeOf(r).Stake? then StakeOf(r).estimated else 0
  }

  function RawPaid(): Checkout -> int {
    (r: Checkout) => if StakeOf(r).Stake? then StakeOf(r).raw else 0
  }

  /** A withdrawal that holds or has spent its amount. */
  predicate Committed(s: WithdrawalStatus) {
    s.Pending? || s.Processing? || s.Completed?
  }

  predicate InFlight(s: WithdrawalStatus) {
    s.Pending? || s.Processing?
  }

  function CommittedBy(who: Option<UserId>): Withdrawal -> int {
    (w: Withdrawal) => if Concerns(who, w.user) && Committed(w.status) then w.amount else 0
  }

  function InFlightOf(who: Option<UserId>): Withdrawal -> int {
    (w: Withdrawal) => if Concerns(who, w.user) && InFlight(w.status) then w.amount else 0
  }

  function CompletedOf(who: Option<UserId>): Withdrawal -> int {
    (w: Withdrawal) => if Concerns(who, w.user) && w.status.Completed? then w.amount else 0
  }

  function AdjustmentsOf(who: Option<UserId>): Entry -> int {
    (e: Entry) => if Concerns(who, e.user) && e.key.AdjustmentKey? then e.available else 0
  }

  function PositiveAdjustmentsOf(who: Option<UserId>): Entry -> int {
    (e: Entry) => if Concerns(who, e.user) && e.key.AdjustmentKey? && e.available > 0 then e.available else 0
  }

  /** A ledger entry is justified by the row its key names. */
  ghost predicate EntryOk(checkouts: seq<Checkout>, ws: seq<Withdrawal>, e: Entry) {
    match e.key
    case SettlementKey(i) =>
      && i < |checkouts| && StakeOf(checkouts[i]).Stake? && StakeOf(checkouts[i]).user == Some(e.user)
      && e.kind == CashbackCredit && e.reference == CommissionRef(i)
      && e.available == StakeOf(checkouts[i]).userAmount && e.reserved == 0
    case ReversalKey(i) =>
      && i < |checkouts| && StakeOf(checkouts[i]).Stake? && StakeOf(checkouts[i]).reversed
      && StakeOf(checkouts[i]).user == Some(e.user)
      && e.kind == CashbackReversal && e.reference == CommissionRef(i)
      && e.available == 0 - StakeOf(checkouts[i]).userAmount && e.reserved == 0
    case ReserveKey(w) =>
      && w < |ws| && ws[w].user == e.user
      && e.kind == WithdrawalReserve && e.reference == WithdrawalRef(w)
      && e.available == 0 - ws[w].amount && e.reserved == ws[w].amount
    case FinalizeKey(w) =>
      && w < |ws| && ws[w].user == e.user && Terminal(ws[w].status)
      && e.kind == (if ws[w].status.Completed? then WithdrawalComplete else WithdrawalRelease)
      && e.reference == WithdrawalRef(w)
      && e.available == (if ws[w].status.Completed? then 0 else ws[w].amount) && e.reserved == 0 - ws[w].amount
    case AdjustmentKey(t) =>
      e.kind == ManualAdjustment && e.reference == AdjustmentRef(t) && e.available != 0 && e.reserved == 0
  }

  ghost predicate EntriesOk(checkouts: seq<Checkout>, ws: seq<Withdrawal>, ledger: seq<Entry>) {
    forall k :: 0 <= k < |ledger| ==> EntryOk(checkouts, ws, ledger[k])
  }

  /** Every row that moved money has its entries. */
  ghost predicate Backed(checkouts: seq<Checkout>, ws: seq<Withdrawal>, ledger: seq<Entry>) {
    && (forall i :: 0 <= i < |checkouts| && StakeOf(checkouts[i]).Stake? ==> HasKey(ledger, SettlementKey(i)))
    && (forall i :: 0 <= i < |checkouts| && StakeOf(checkouts[i]).Stake? && StakeOf(checkouts[i]).reversed
          ==> HasKey(ledger, ReversalKey(i)))
    && (forall w :: 0 <= w < |ws| ==> HasKey(ledger, ReserveKey(w)))
    && (forall w :: 0 <= w < |ws| && Terminal(ws[w].status) ==> HasKey(ledger, FinalizeKey(w)))
  }

  /** The books balance, for one user or for everybody. */
  ghost predicate Balanced(checkouts: seq<Checkout>, ws: seq<Withdrawal>, ledger: seq<Entry>, who: Option<UserId>) {
    && Sum(ledger, AvailableOf(who)) ==
         Sum(checkouts, CreditedTo(who)) - Sum(checkouts, ReversedFrom(who))
         + Sum(ledger, AdjustmentsOf(who)) - Sum(ws, CommittedBy(who))
    && Sum(ledger, ReservedOf(who)) == Sum(ws, InFlightOf(who))
  }

  /** A user's withdrawals are covered by what the user was ever given. */
  ghost predicate Solvent(checkouts: seq<Checkout>, ws: seq<Withdrawal>, ledger: seq<Entry>, user: UserId) {
    Sum(ws, CommittedBy(Some(user))) <=
      Sum(checkouts, CreditedTo(Some(user))) + Sum(ledger, PositiveAdjustmentsOf(Some(user)))
  }

  ghost predicate BooksOk(checkouts: seq<Checkout>, ws: seq<Withdrawal>, ledger: seq<Entry>) {
    && EntriesOk(checkouts, ws, ledger)
    && Backed(checkouts, ws, ledger)
    && (forall who :: Balanced(checkouts, ws, ledger, who))
    && (forall user :: Solvent(checkouts, ws, ledger, user))
  }

  // ---------- Settlement batches ----------

  function EstimatedAt(checkouts: seq<Checkout>): SettlementItem -> int {
    (i: SettlementItem) => if i.commission < |checkouts| then checkouts[i.commission].commission.estimatedVnd else 0
  }

  /** No publish or review touched the item's checkout since the batch was created. */
  predicate Fresh(checkouts: seq<Checkout>, item: SettlementItem) {
    item.commission < |checkouts| && checkouts[item.commission].revision == item.revisionSnapshot
  }

  predicate AllFresh(checkouts: seq<Checkout>, items: seq<SettlementItem>) {
    forall k :: 0 <= k < |items| ==> Fresh(checkouts, items[k])
  }

  /** A draft's item: while its checkout is untouched, the commission is still payable as it was. */
  ghost predicate DraftItemOk(checkouts: seq<Checkout>, item: SettlementItem) {
    && item.commission < |checkouts|
    && item.revisionSnapshot <= checkouts[item.commission].revision
    && (Fresh(checkouts, item) ==>
          && checkouts[item.commission].commission.state.Validated?
          && checkouts[item.commission].commission.rawAmount == item.rawSnapshot)
  }

  ghost predicate PaidItemOk(checkouts: seq<Checkout>, item: SettlementItem) {
    item.commission < |checkouts| && StakeOf(checkouts[item.commission]).Stake?
    && StakeOf(checkouts[item.commission]).settled == item.netVnd
  }

  ghost predicate BatchOk(checkouts: seq<Checkout>, b: SettlementBatch) {
    && b.grossVnd - b.deductionVnd == b.netVnd
    && (b.status.Cancelled? ==> b.items == [])
    && (!b.status.Cancelled? ==> b.items != [] && Sum(b.items, NetOf()) == b.netVnd)
    && (forall k :: 0 <= k < |b.items| ==> b.items[k].netVnd >= 0)
    && (b.status.Draft? ==> forall k :: 0 <= k < |b.items| ==> DraftItemOk(checkouts, b.items[k]))
    && (b.status.Draft? && AllFresh(checkouts, b.items) ==> Sum(b.items, EstimatedAt(checkouts)) == b.grossVnd)
    && (b.status.Confirmed? ==> forall k :: 0 <= k < |b.items| ==> PaidItemOk(checkouts, b.items[k]))
    && (b.status.Confirmed? ==> Sum(b.items, EstimatedAt(checkouts)) == b.grossVnd)
  }

  predicate IsItem(batches: seq<SettlementBatch>, b: int, k: int) {
    0 <= b < |batches| && 0 <= k < |batches[b].items|
  }

  /** A commission has at most one settlement item. */
  ghost predicate UniqueItems(batches: seq<SettlementBatch>) {
    forall a, j, b, k | IsItem(batches, a, j) && IsItem(batches, b, k) ::
      batches[a].items[j].commission == batches[b].items[k].commission ==> a == b && j == k
  }

  ghost predicate InConfirmed(batches: seq<SettlementBatch>, id: nat) {
    exists b, k :: IsItem(batches, b, k) && batches[b].status.Confirmed? && batches[b].items[k].commission == id
  }

  function ConfirmedNet(): SettlementBatch -> int {
    (b: SettlementBatch) => if b.status.Confirmed? then b.netVnd else 0
  }

  function ConfirmedGross(): SettlementBatch -> int {
    (b: SettlementBatch) => if b.status.Confirmed? then b.grossVnd else 0
  }

  ghost predicate EachBatchOk(checkouts: seq<Checkout>, batches: seq<SettlementBatch>) {
    forall b :: 0 <= b < |batches| ==> BatchOk(checkouts, batches[b])
  }

  ghost predicate BatchesOk(checkouts: seq<Checkout>, batches: seq<SettlementBatch>) {
    && EachBatchOk(checkouts, batches)
    && UniqueItems(batches)
    && (forall i :: 0 <= i < |checkouts| && StakeOf(checkouts[i]).Stake? ==> InConfirmed(batches, i))
    && Sum(checkouts, SettledVnd()) == Sum(batches, ConfirmedNet())
    && Sum(checkouts, EstimatedPaid()) == Sum(batches, ConfirmedGross())
  }

  // ---------- The whole database ----------

  ghost predicate CredentialOk(credential: Option<Credential>) {
    credential.Some? ==> WellFormedAccount(credential.value.accountId)
  }

  /** Everything but the settlement batches; this also holds in the middle of a confirmation. */
  ghost predicate Core(env: Env, db: Db) {
    && RowsOk(env, db.checkouts)
    && UniqueCheckouts(db.checkouts)
    && OnePaid(db.checkouts)
    && OpenIssuesCurrent(db.checkouts, db.issues)
    && ReviewIffOpen(db.checkouts, db.issues)
    && LedgerOk(db.accounts)
    && BooksOk(db.checkouts, db.withdrawals, db.accounts.ledger)
    && CredentialOk(db.credential)
  }

  ghost predicate Inv(env: Env, db: Db) {
    Core(env, db) && BatchesOk(db.checkouts, db.batches)
  }

  /** Every run starts from an empty database. */
  lemma EmptyOk(env: Env)
    ensures Inv(env, EMPTY)
  {
    assert EMPTY == Db([], [], [], [], Accounts([], []), None, [], None);
    assert Core(env, EMPTY) by {
      assert RowsOk(env, []) && UniqueCheckouts([]) && OnePaid([]);
      assert OpenIssuesCurrent([], []) && ReviewIffOpen([], []);
      assert LedgerOk(Accounts([], []));
      assert BooksOk([], [], []);
    }
    NoBatches(EMPTY.checkouts, EMPTY.batches);
  }

  lemma NoBatches(checkouts: seq<Checkout>, batches: seq<SettlementBatch>)
    requires |checkouts| == 0 && |batches| == 0
    ensures BatchesOk(checkouts, batches)
  {
  }
}
