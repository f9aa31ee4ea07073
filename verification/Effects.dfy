/** What one accepted request does to the balances and the batches, and what undoes it. */
module Effects {
  import opened Prelude
  import opened Money
  import opened Payment
  import opened Wallets
  import opened Tables
  import opened Eligibility
  import opened Settlement
  import opened Withdrawals
  import opened Invariants
  import opened Books
  import opened CoreSteps

  // ---------- Settlement drafts ----------

  /**
   * A draft shares out the whole net amount over its commissions in proportion to their estimates: every
   * share but the last is the rounded-down fraction, and the last takes the remainder. Each item remembers
   * the raw amount and the revision it was computed from.
   */
  lemma CreateAllocates(env: Env, db: Db, input: Request)
    requires Create(env, db, input).Ok?
    ensures InRange(input.ids, |db.checkouts|)
    ensures var after := Create(env, db, input).value;
      && |after.batches| == |db.batches| + 1
      && after == db.(batches := db.batches + [after.batches[|db.batches|]])
    ensures var batch := Create(env, db, input).value.batches[|db.batches|];
      var n := |input.ids|; var items := batch.items;
      && batch == SettlementBatch(input.reference, input.grossVnd, input.deductionVnd, input.netVnd, Draft, items)
      && |items| == n > 0
      && Sum(items, NetOf()) == input.netVnd
      && (forall k :: 0 <= k < n ==>
            && items[k].commission == input.ids[k]
            && items[k].rawSnapshot == db.checkouts[input.ids[k]].commission.rawAmount
            && items[k].revisionSnapshot == db.checkouts[input.ids[k]].revision
            && items[k].netVnd >= 0)
      && (forall k :: 0 <= k < n - 1 ==>
            items[k].netVnd == input.netVnd * db.checkouts[input.ids[k]].commission.estimatedVnd / input.grossVnd)
  {
    hide ProvidersEligible, CommissionBlockers, FirstBlocker, AllocateFrom;
    var weights := Weights(db.checkouts, input.ids);
    var batch := Create(env, db, input).value.batches[|db.batches|];
    AllocationExact(input.netVnd, weights);
    SumCongruent(batch.items, AllocateNet(input.netVnd, weights).value, NetOf(), Value());
  }

  /**
   * When a draft pays no commission more than its estimate. Every item but the last always stays within
   * it; the last one does exactly when the deduction's part of its estimate is worth what rounding takes
   * from the others.
   */
  lemma DraftWithinEstimates(env: Env, db: Db, input: Request)
    requires Create(env, db, input).Ok?
    ensures InRange(input.ids, |db.checkouts|) && |input.ids| > 0
    ensures |Create(env, db, input).value.batches| > |db.batches|
    ensures |Create(env, db, input).value.batches[|db.batches|].items| == |input.ids|
    ensures var items := Create(env, db, input).value.batches[|db.batches|].items; var last := |input.ids| - 1;
      var estimates := Weights(db.checkouts, input.ids);
      && (forall k :: 0 <= k < last ==> items[k].netVnd <= estimates[k])
      && (items[last].netVnd <= estimates[last] <==>
            Remainders(input.netVnd, estimates[..last], input.grossVnd) <= input.deductionVnd * estimates[last])
  {
    hide ProvidersEligible, CommissionBlockers, FirstBlocker, AllocateFrom, Remainders;
    var estimates := Weights(db.checkouts, input.ids);
    var shares := AllocateNet(input.netVnd, estimates).value;
    var items := Create(env, db, input).value.batches[|db.batches|].items;
    AllocationExact(input.netVnd, estimates);
    LastShareExact(input.netVnd, estimates);
    var last := |input.ids| - 1;
    LastWithin(input.netVnd, input.grossVnd, estimates[last], shares[last],
               Remainders(input.netVnd, estimates[..last], input.grossVnd));
    forall k | 0 <= k < last ensures items[k].netVnd <= estimates[k] {
      FloorWithin(input.netVnd, input.grossVnd, estimates[k]);
    }
  }

  /**
   * Cancelling a draft gives its commissions back: nothing but the cancelled batch is left of it, every
   * commission is as eligible as before, and the same request goes through again under a new reference.
   */
  lemma CancelUndoesCreate(env: Env, db: Db, input: Request, reference: string)
    requires Create(env, db, input).Ok?
    requires reference != input.reference && forall b :: b in db.batches ==> b.reference != reference
    ensures var id := |db.batches|; var created := Create(env, db, input).value;
      && Settlement.Cancel(created, id).Ok?
      && var after := Settlement.Cancel(created, id).value;
        && |after.batches| == id + 1 && after.batches[..id] == db.batches
        && after.batches[id].status.Cancelled? && after.batches[id].items == []
        && after == db.(batches := after.batches)
        && (forall i :: 0 <= i < |db.checkouts| ==> CommissionBlockers(after, i) == CommissionBlockers(db, i))
        && Create(env, after, input.(reference := reference)).Ok?
  {
    CreateAllocates(env, db, input);
    var id := |db.batches|;
    var created := Create(env, db, input).value;
    var after := CancelledDraft(db, created);
    forall i | 0 <= i < |db.checkouts| ensures CommissionBlockers(after, i) == CommissionBlockers(db, i) {
      SameSettlements(db.batches, after.batches, i);
    }
    Recreate(env, db, after, input, reference);
  }

  /** The commission is an item of some batch other than this one. */
  ghost predicate ItemElsewhere(batches: seq<SettlementBatch>, id: nat, commission: nat) {
    exists b, k :: IsItem(batches, b, k) && b != id && batches[b].items[k].commission == commission
  }

  /**
   * Cancelling. A draft can be cancelled at any time: it keeps its reference and amounts, its items are
   * deleted, exactly its own commissions become free, and nothing else changes. Cancelling again changes
   * nothing, and a confirmed batch stays as it is.
   */
  lemma CancelExact(env: Env, db: Db, id: nat)
    requires Inv(env, db)
    ensures id >= |db.batches| ==> Settlement.Cancel(db, id) == Err(SettlementNotFound)
    ensures id < |db.batches| && db.batches[id].status.Confirmed? ==>
      Settlement.Cancel(db, id) == Err(ConfirmedSettlementIsImmutable)
    ensures id < |db.batches| && db.batches[id].status.Cancelled? ==> Settlement.Cancel(db, id) == Ok(db)
    ensures id < |db.batches| && db.batches[id].status.Draft? ==>
      && Settlement.Cancel(db, id).Ok?
      && var after := Settlement.Cancel(db, id).value;
        && after == db.(batches := db.batches[id := db.batches[id].(status := BatchStatus.Cancelled, items := [])])
        && (forall i :: InSettlement(after.batches, i) <==> ItemElsewhere(db.batches, id, i))
        && (forall item :: item in db.batches[id].items ==> !InSettlement(after.batches, item.commission))
  {
    hide Core, EachBatchOk;
    if id < |db.batches| && db.batches[id].status.Draft? {
      var after := Settlement.Cancel(db, id).value;
      forall i
        ensures InSettlement(after.batches, i) <==> ItemElsewhere(db.batches, id, i)
        ensures InSettlement(after.batches, i) ==> forall item :: item in db.batches[id].items ==> item.commission != i
      {
        Freed(db.batches, after.batches, id, i);
      }
    }
  }

  lemma Freed(a: seq<SettlementBatch>, b: seq<SettlementBatch>, id: nat, i: nat)
    requires UniqueItems(a) && id < |a| == |b| && b == a[id := b[id]] && b[id].items == []
    ensures InSettlement(b, i) <==> ItemElsewhere(a, id, i)
    ensures InSettlement(b, i) ==> forall item :: item in a[id].items ==> item.commission != i
  {
    if InSettlement(b, i) {
      var x :| 0 <= x < |b| && exists k :: 0 <= k < |b[x].items| && b[x].items[k].commission == i;
      var k :| 0 <= k < |b[x].items| && b[x].items[k].commission == i;
      assert IsItem(a, x, k) && x != id;
      forall item | item in a[id].items ensures item.commission != i {
        var j :| 0 <= j < |a[id].items| && a[id].items[j] == item;
        assert IsItem(a, id, j);
      }
    }
    if ItemElsewhere(a, id, i) {
      var x, k :| IsItem(a, x, k) && x != id && a[x].items[k].commission == i;
      assert b[x].items[k].commission == i;
    }
  }

  lemma CancelledDraft(db: Db, created: Db) returns (after: Db)
    requires |created.batches| == |db.batches| + 1
    requires created == db.(batches := db.batches + [created.batches[|db.batches|]])
    requires created.batches[|db.batches|].status.Draft?
    ensures Settlement.Cancel(created, |db.batches|) == Ok(after)
    ensures |after.batches| == |db.batches| + 1 && after.batches[..|db.batches|] == db.batches
    ensures after == db.(batches := after.batches)
    ensures var b := after.batches[|db.batches|];
      b.status.Cancelled? && b.items == [] && b.reference == created.batches[|db.batches|].reference
  {
    after := Settlement.Cancel(created, |db.batches|).value;
  }

  lemma SameSettlements(a: seq<SettlementBatch>, b: seq<SettlementBatch>, id: nat)
    requires |b| == |a| + 1 && b[..|a|] == a && b[|a|].items == []
    ensures InSettlement(b, id) <==> InSettlement(a, id)
  {
    forall x | 0 <= x < |a| ensures b[x] == a[x] { assert b[..|a|][x] == a[x]; }
    if InSettlement(a, id) {
      var x :| 0 <= x < |a| && exists k :: 0 <= k < |a[x].items| && a[x].items[k].commission == id;
      assert b[x] == a[x];
    }
  }

  lemma Recreate(env: Env, db: Db, after: Db, input: Request, reference: string)
    requires Create(env, db, input).Ok? && after == db.(batches := after.batches)
    requires forall i :: 0 <= i < |db.checkouts| ==> CommissionBlockers(after, i) == CommissionBlockers(db, i)
    requires forall b :: b in after.batches ==> b.reference != reference
    ensures Create(env, after, input.(reference := reference)).Ok?
  {
    hide CommissionBlockers, AllocateFrom, FirstBlocker, Total;
    assert ProvidersEligible(env, after, input.ids) by {
      forall k | 0 <= k < |input.ids|
        ensures ProviderBlockers(env, after, after.checkouts[input.ids[k]]) ==
          ProviderBlockers(env, db, db.checkouts[input.ids[k]])
      {
      }
    }
    assert RowsEligible(after, input.ids);
  }

  // ---------- Balances ----------

  /** Exactly this user's balances move, by these amounts. */
  ghost predicate Moves(a: Accounts, b: Accounts, user: UserId, available: int, reserved: int) {
    forall u: UserId ::
      && Available(b, u) == Available(a, u) + (if u == user then available else 0)
      && Reserved(b, u) == Reserved(a, u) + (if u == user then reserved else 0)
  }

  lemma PostMoves(a: Accounts, p: Posting)
    requires LedgerOk(a) && !HasKey(a.ledger, p.key) && Post(a, p).Ok?
    ensures Moves(a, Post(a, p).value, p.user, p.available, p.reserved)
  {
    hide LedgerOk, Post, Sum;
    FreshPost(a, p);
    var e := EntryOf(Wallet(p.user, Available(a, p.user), Reserved(a, p.user)), p);
    forall u: UserId
      ensures Available(Post(a, p).value, u) == Available(a, u) + (if u == p.user then p.available else 0)
      ensures Reserved(Post(a, p).value, u) == Reserved(a, u) + (if u == p.user then p.reserved else 0)
    {
      LedgerAppend(a.ledger, e, Some(u));
    }
  }

  /** A new request moves its amount from available to reserved and is stored as it was made. */
  lemma RequestMoves(env: Env, db: Db, input: WithdrawalRequest)
    requires Core(env, db) && CreateWithdrawal(env, db, input).Ok?
    requires FindWithdrawal(db.withdrawals, input.user, input.key).None?
    ensures var after := CreateWithdrawal(env, db, input).value;
      && Moves(db.accounts, after.accounts, input.user, 0 - input.amount, input.amount)
      && after.withdrawals == db.withdrawals +
           [Withdrawal(input.user, input.key, input.bankId, input.amount, WithdrawalStatus.Pending)]
      && after.checkouts == db.checkouts && after.batches == db.batches
  {
    hide RowsOk, LedgerOk, ReviewIffOpen, OpenIssuesCurrent, OnePaid, UniqueCheckouts, Post, Moves;
    var p := ReservePosting(|db.withdrawals|, input.user, input.amount);
    KeyUsedIffWritten(db.checkouts, db.withdrawals, db.accounts.ledger, p.key);
    PostMoves(db.accounts, p);
  }

  /** Completing spends the reserve; rejecting or failing gives it back; processing moves nothing. */
  lemma TransitionMoves(env: Env, db: Db, id: nat, to: WithdrawalStatus)
    requires Core(env, db) && Transition(db, id, to).Ok? && db.withdrawals[id].status != to
    ensures var after := Transition(db, id, to).value; var w := db.withdrawals[id];
      && Moves(db.accounts, after.accounts, w.user, if to.Rejected? || to.Failed? then w.amount else 0,
               if to.Processing? then 0 else 0 - w.amount)
      && after.withdrawals == db.withdrawals[id := w.(status := to)]
      && after.checkouts == db.checkouts && after.batches == db.batches
  {
    hide RowsOk, LedgerOk, ReviewIffOpen, OpenIssuesCurrent, OnePaid, UniqueCheckouts, Post, InDebt;
    if !to.Processing? {
      var p := FinalizePosting(id, db.withdrawals[id], to);
      KeyUsedIffWritten(db.checkouts, db.withdrawals, db.accounts.ledger, p.key);
      PostMoves(db.accounts, p);
    }
  }

  /** Rejecting a request at once restores every balance. */
  lemma RejectUndoesRequest(env: Env, db: Db, input: WithdrawalRequest)
    requires Core(env, db) && CreateWithdrawal(env, db, input).Ok?
    requires FindWithdrawal(db.withdrawals, input.user, input.key).None?
    ensures var requested := CreateWithdrawal(env, db, input).value;
      var rejected := Transition(requested, |db.withdrawals|, WithdrawalStatus.Rejected);
      && rejected.Ok?
      && Moves(db.accounts, rejected.value.accounts, input.user, 0, 0)
      && rejected.value.withdrawals == db.withdrawals +
           [Withdrawal(input.user, input.key, input.bankId, input.amount, WithdrawalStatus.Rejected)]
  {
    hide Core, CreateWithdrawal, Transition, Available, Reserved;
    RequestMoves(env, db, input);
    CreateWithdrawalKeepsCore(env, db, input);
    var requested := CreateWithdrawal(env, db, input).value;
    RejectPending(env, requested, |db.withdrawals|);
    TransitionMoves(env, requested, |db.withdrawals|, WithdrawalStatus.Rejected);
  }

  lemma RejectPending(env: Env, db: Db, id: nat)
    requires Core(env, db) && id < |db.withdrawals| && db.withdrawals[id].status.Pending?
    ensures Transition(db, id, WithdrawalStatus.Rejected).Ok?
  {
    hide Core, Post;
    FinalizePosts(env, db, id, WithdrawalStatus.Rejected);
  }

  /**
   * An adjustment is accepted exactly when its amount is not zero and its key is new or was used for the
   * same adjustment; it moves the balance once, however often it is sent.
   */
  lemma AdjustExact(env: Env, db: Db, user: UserId, key: string, amount: int)
    requires Core(env, db)
    ensures Adjust(db, user, key, amount).Ok? <==>
      && amount != 0
      && forall e :: e in db.accounts.ledger && e.key == AdjustmentKey(key) ==> e.user == user && e.available == amount
    ensures Adjust(db, user, key, amount).Ok? ==>
      var after := Adjust(db, user, key, amount).value;
      && Moves(db.accounts, after.accounts, user,
               if HasKey(db.accounts.ledger, AdjustmentKey(key)) then 0 else amount, 0)
      && Adjust(after, user, key, amount) == Ok(after)
  {
    hide RowsOk, ReviewIffOpen, OpenIssuesCurrent, OnePaid, UniqueCheckouts, Moves;
    var p := AdjustmentPosting(user, key, amount);
    AdjustPosting(env, db, p);
    if Post(db.accounts, p).Ok? {
      PostOnce(db.accounts, p, p);
      AdjustMoves(env, db, p);
    }
  }

  lemma AdjustPosting(env: Env, db: Db, p: Posting)
    requires Core(env, db) && p.key.AdjustmentKey? && p == AdjustmentPosting(p.user, p.key.text, p.available)
    ensures Post(db.accounts, p).Ok? <==>
      forall e :: e in db.accounts.ledger && e.key == p.key ==> e.user == p.user && e.available == p.available
  {
    hide RowsOk, ReviewIffOpen, OpenIssuesCurrent, OnePaid, UniqueCheckouts, Sum, Running, Balanced, Solvent, Backed;
    var ledger := db.accounts.ledger;
    forall k | 0 <= k < |ledger| ensures EntryOk(db.checkouts, db.withdrawals, ledger[k]) {}
    if FindEntry(ledger, p.key).None? {
      hide LedgerOk, Post;
      FreshPost(db.accounts, p);
      ReservedIsInFlight(db, p.user);
    } else {
      var at := FindEntry(ledger, p.key).value;
      forall e | e in ledger && e.key == p.key ensures e == ledger[at] {
        var k :| 0 <= k < |ledger| && ledger[k] == e;
      }
      assert ledger[at] in ledger;
    }
  }

  lemma AdjustMoves(env: Env, db: Db, p: Posting)
    requires Core(env, db) && Post(db.accounts, p).Ok? && p.key.AdjustmentKey? && p.reserved == 0
    ensures Moves(db.accounts, Post(db.accounts, p).value, p.user,
                  if HasKey(db.accounts.ledger, p.key) then 0 else p.available, 0)
  {
    if HasKey(db.accounts.ledger, p.key) {
      KnownPost(db.accounts, p);
    } else {
      PostMoves(db.accounts, p);
    }
  }
}
