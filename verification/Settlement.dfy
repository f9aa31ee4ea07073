/** Settlement batches: a draft with revision snapshots, then crediting, or cancelling. */
module Settlement {
  import opened Prelude
  import opened Money
  import opened Payment
  import opened Wallets
  import opened Tables
  import opened Eligibility

  /** The request, commission ids in ascending row order, as the query returns them. */
  datatype Request = Request(reference: string, ids: seq<nat>, grossVnd: nat, deductionVnd: nat, netVnd: nat)

  /** The request schema: 1 to 500 distinct commissions. */
  predicate WellFormed(input: Request) {
    1 <= |input.ids| <= 500 && forall i, j :: 0 <= i < j < |input.ids| ==> input.ids[i] != input.ids[j]
  }

  predicate InRange(ids: seq<nat>, n: nat) {
    forall k :: 0 <= k < |ids| ==> ids[k] < n
  }

  predicate RowsEligible(db: Db, ids: seq<nat>) {
    InRange(ids, |db.checkouts|) && forall k :: 0 <= k < |ids| ==> CommissionBlockers(db, ids[k]) == []
  }

  predicate ProvidersEligible(env: Env, db: Db, ids: seq<nat>)
    requires InRange(ids, |db.checkouts|)
  {
    forall k :: 0 <= k < |ids| ==> ProviderBlockers(env, db, db.checkouts[ids[k]]) == []
  }

  /** The first blocker met when the rows are checked in order. */
  function FirstBlocker(env: Env, db: Db, ids: seq<nat>): Blocker
    requires InRange(ids, |db.checkouts|) && !ProvidersEligible(env, db, ids)
    decreases |ids|
  {
    var blockers := ProviderBlockers(env, db, db.checkouts[ids[0]]);
    if blockers != [] then blockers[0] else FirstBlocker(env, db, ids[1..])
  }

  function Weights(checkouts: seq<Checkout>, ids: seq<nat>): (w: seq<int>)
    requires InRange(ids, |checkouts|)
    ensures |w| == |ids|
    ensures forall k :: 0 <= k < |w| ==> w[k] == checkouts[ids[k]].commission.estimatedVnd
  {
    seq(|ids|, k requires 0 <= k < |ids| => checkouts[ids[k]].commission.estimatedVnd)
  }

  /** What a settlement item remembers of its commission. */
  function ItemOf(id: nat, row: Checkout, amount: int): SettlementItem {
    SettlementItem(id, row.commission.rawAmount, row.revision, amount)
  }

  function Items(checkouts: seq<Checkout>, ids: seq<nat>, amounts: seq<int>): (items: seq<SettlementItem>)
    requires |amounts| == |ids| && InRange(ids, |checkouts|)
    ensures |items| == |ids|
    ensures forall k :: 0 <= k < |items| ==> items[k] == ItemOf(ids[k], checkouts[ids[k]], amounts[k])
  {
    seq(|ids|, k requires 0 <= k < |ids| => ItemOf(ids[k], checkouts[ids[k]], amounts[k]))
  }

  /** `create(input, actor)`. */
  function Create(env: Env, db: Db, input: Request): Result<Db> {
    if !WellFormed(input) then Err(InvalidInput)
    else if input.grossVnd - input.deductionVnd != input.netVnd || input.grossVnd <= 0
    then Err(SettlementTotalsMismatch)
    else if !RowsEligible(db, input.ids) then Err(CommissionsNotEligible)
    else if !ProvidersEligible(env, db, input.ids) then Err(ProviderBlocked(FirstBlocker(env, db, input.ids)))
    else
      var weights := Weights(db.checkouts, input.ids);
      if input.grossVnd != Total(weights) then Err(GrossDiffersFromValidatedCommission)
      else
        var amounts := AllocateNet(input.netVnd, weights);
        if amounts.Err? then Err(amounts.error)
        else if exists b :: b in db.batches && b.reference == input.reference then Err(ReferenceTaken)
        else
          Ok(db.(batches := db.batches + [SettlementBatch(input.reference, input.grossVnd, input.deductionVnd,
                            input.netVnd, Draft, Items(db.checkouts, input.ids, amounts.value))]))
  }

  function NetOf(): SettlementItem -> int {
    (i: SettlementItem) => i.netVnd
  }

  function CreditPosting(id: nat, user: UserId, amount: nat): Posting {
    Posting(user, SettlementKey(id), CashbackCredit, amount, 0, CommissionRef(id), None)
  }

  function PaidCommission(c: Commission, net: nat): Commission
    requires c.cashback.Some?
  {
    var split := SplitCashback(net, c.cashback.value.userBps).value;
    c.(state := CommissionState.Paid, settledVnd := net,
       cashback := Some(c.cashback.value.(state := CashbackAvailable, userAmount := split.user,
                                          platformAmount := split.platform)))
  }

  /** One iteration of `confirm`. */
  function ConfirmItem(env: Env, db: Db, item: SettlementItem): Result<Db> {
    if item.commission >= |db.checkouts| then Err(NotFound)
    else
      var id := item.commission;
      var row := db.checkouts[id];
      var c := row.commission;
      if ProviderBlockers(env, db, row) != [] then Err(ProviderBlocked(ProviderBlockers(env, db, row)[0]))
      else if row.revision != item.revisionSnapshot then Err(CommissionRevisionChanged)
      else if !c.state.Validated? || c.user.None? || c.cashback.None? || c.rawAmount != item.rawSnapshot
      then Err(CommissionChangedResyncRequired)
      else if item.netVnd < 0 then Err(Error.InvalidCashback)
      else
        var paid := PaidCommission(c, item.netVnd);
        var accounts := Post(db.accounts, CreditPosting(id, c.user.value, paid.cashback.value.userAmount));
        if accounts.Err? then Err(accounts.error)
        else Ok(db.(checkouts := db.checkouts[id := row.(commission := paid)], accounts := accounts.value))
  }

  function ConfirmItems(env: Env, db: Db, items: seq<SettlementItem>): (r: Result<Db>)
    ensures r.Ok? ==> r.value.batches == db.batches
    decreases |items|
  {
    if items == [] then Ok(db)
    else
      var first := ConfirmItem(env, db, items[0]);
      if first.Err? then first else ConfirmItems(env, first.value, items[1..])
  }

  /** `confirm(id, actor)`; a confirmed batch is returned unchanged. */
  function Confirm(env: Env, db: Db, id: nat): Result<Db> {
    if !env.settlementEnabled then Err(SettlementDisabled)
    else if id >= |db.batches| then Err(SettlementNotFound)
    else
      var batch := db.batches[id];
      if batch.status.Confirmed? then Ok(db)
      else if !batch.status.Draft? then Err(SettlementNotDraft)
      else if Sum(batch.items, NetOf()) != batch.netVnd then Err(SettlementUnbalanced)
      else
        var paid := ConfirmItems(env, db, batch.items);
        if paid.Err? then paid
        else Ok(paid.value.(batches := db.batches[id := batch.(status := Confirmed)]))
  }

  /** `cancel(id, actor, reason)`: the items of a draft are deleted with it. */
  function Cancel(db: Db, id: nat): Result<Db> {
    if id >= |db.batches| then Err(SettlementNotFound)
    else
      var batch := db.batches[id];
      if batch.status.Cancelled? then Ok(db)
      else if !batch.status.Draft? then Err(ConfirmedSettlementIsImmutable)
      else Ok(db.(batches := db.batches[id := batch.(status := BatchStatus.Cancelled, items := [])]))
  }
}
