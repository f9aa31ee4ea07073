/** Settlement batches through every transaction. */
module Batches {
  import opened Prelude
  import opened Money
  import opened Payment
  import opened Wallets
  import opened Tables
  import opened Eligibility
  import opened Settlement
  import opened Invariants
  import opened Rows
  import opened CoreSteps

  // ---------- Publishing and reviewing ----------

  lemma BumpedMoney(a: Checkout, b: Checkout)
    requires b == a || Bumped(a, b)
    ensures SettledVnd()(b) == SettledVnd()(a) && EstimatedPaid()(b) == EstimatedPaid()(a)
    ensures StakeOf(a).Stake? <==> StakeOf(b).Stake?
    ensures StakeOf(a).Stake? ==> b.commission.estimatedVnd == a.commission.estimatedVnd
  {
  }

  lemma BumpsSum(a: seq<Checkout>, b: seq<Checkout>, f: Checkout -> int)
    requires |a| <= |b|
    requires forall i :: 0 <= i < |a| ==> f(b[i]) == f(a[i])
    requires forall i :: |a| <= i < |b| ==> f(b[i]) == 0
    ensures Sum(b, f) == Sum(a, f)
  {
    assert b == b[..|a|] + b[|a|..];
    SumConcat(b[..|a|], b[|a|..], f);
    SumCongruent(a, b[..|a|], f, f);
    SumCongruent(b[|a|..], b[|a|..], f, (r: Checkout) => 0);
    ZeroSum(b[|a|..]);
  }

  lemma {:induction false} ZeroSum(rows: seq<Checkout>)
    ensures Sum(rows, (r: Checkout) => 0) == 0
    decreases |rows|
  {
    if |rows| > 0 { ZeroSum(rows[..|rows| - 1]); }
  }

  /** An item that is fresh afterwards was fresh before, and its row did not change. */
  lemma BumpedItem(a: seq<Checkout>, b: seq<Checkout>, item: SettlementItem)
    requires Bumps(a, b) && DraftItemOk(a, item)
    ensures DraftItemOk(b, item)
    ensures Fresh(b, item) ==> Fresh(a, item) && b[item.commission] == a[item.commission]
  {
    var i := item.commission;
    assert b[i] == a[i] || Bumped(a[i], b[i]);
  }

  lemma BumpKeepsBatch(a: seq<Checkout>, b: seq<Checkout>, batch: SettlementBatch)
    requires Bumps(a, b) && BatchOk(a, batch)
    ensures BatchOk(b, batch)
  {
    hide Bumped, StakeOf;
    if batch.status.Draft? {
      forall k | 0 <= k < |batch.items|
        ensures DraftItemOk(b, batch.items[k])
        ensures Fresh(b, batch.items[k]) ==> Fresh(a, batch.items[k])
        ensures Fresh(b, batch.items[k]) ==> EstimatedAt(b)(batch.items[k]) == EstimatedAt(a)(batch.items[k])
      {
        BumpedItem(a, b, batch.items[k]);
      }
      if AllFresh(b, batch.items) {
        SumCongruent(batch.items, batch.items, EstimatedAt(a), EstimatedAt(b));
      }
    }
    if batch.status.Confirmed? {
      forall k | 0 <= k < |batch.items|
        ensures PaidItemOk(b, batch.items[k]) && EstimatedAt(b)(batch.items[k]) == EstimatedAt(a)(batch.items[k])
      {
        assert PaidItemOk(a, batch.items[k]);
        var i := batch.items[k].commission;
        assert b[i] == a[i] || Bumped(a[i], b[i]);
        BumpedMoney(a[i], b[i]);
      }
      SumCongruent(batch.items, batch.items, EstimatedAt(a), EstimatedAt(b));
    }
  }

  /** Publishing and reviewing keep every batch in order, and every total. */
  lemma BumpKeepsBatches(a: seq<Checkout>, b: seq<Checkout>, batches: seq<SettlementBatch>)
    requires Bumps(a, b) && BatchesOk(a, batches)
    ensures BatchesOk(b, batches)
  {
    hide BatchOk, StakeOf, UniqueItems, Bumped;
    forall k | 0 <= k < |batches| ensures BatchOk(b, batches[k]) {
      BumpKeepsBatch(a, b, batches[k]);
    }
    forall i | 0 <= i < |a|
      ensures StakeOf(a[i]).Stake? <==> StakeOf(b[i]).Stake?
      ensures SettledVnd()(b[i]) == SettledVnd()(a[i]) && EstimatedPaid()(b[i]) == EstimatedPaid()(a[i])
    {
      BumpedMoney(a[i], b[i]);
    }
    BumpsSum(a, b, SettledVnd());
    BumpsSum(a, b, EstimatedPaid());
  }

  // ---------- Creating a draft ----------

  lemma NoCommissionBlockers(db: Db, id: nat)
    requires id < |db.checkouts|
    ensures CommissionBlockers(db, id) == [] <==>
      && db.checkouts[id].commission.state.Validated?
      && db.checkouts[id].commission.user.Some?
      && !InSettlement(db.batches, id)
  {
    hide InSettlement;
  }

  lemma CreatedBatchOk(env: Env, db: Db, input: Request)
    requires Create(env, db, input).Ok?
    ensures var db' := Create(env, db, input).value; var n := |db.batches|;
      && db' == db.(batches := db'.batches) && |db'.batches| == n + 1 && db'.batches[..n] == db.batches
      && db'.batches[n].status.Draft?
      && BatchOk(db.checkouts, db'.batches[n])
      && |db'.batches[n].items| == |input.ids| && WellFormed(input)
      && (forall k :: 0 <= k < |input.ids| ==>
            db'.batches[n].items[k].commission == input.ids[k] && !InSettlement(db.batches, input.ids[k]))
  {
    hide ProvidersEligible, InSettlement;
    var weights := Weights(db.checkouts, input.ids);
    var amounts := AllocateNet(input.netVnd, weights).value;
    var batch := Create(env, db, input).value.batches[|db.batches|];
    AllocationExact(input.netVnd, weights);
    SumCongruent(batch.items, amounts, NetOf(), Value());
    SumCongruent(batch.items, weights, EstimatedAt(db.checkouts), Value());
    forall k | 0 <= k < |input.ids|
      ensures DraftItemOk(db.checkouts, batch.items[k]) && !InSettlement(db.batches, input.ids[k])
    {
      NoCommissionBlockers(db, input.ids[k]);
    }
  }

  lemma AppendKeepsUnique(batches: seq<SettlementBatch>, batch: SettlementBatch)
    requires UniqueItems(batches)
    requires forall i, j :: 0 <= i < j < |batch.items| ==> batch.items[i].commission != batch.items[j].commission
    requires forall k :: 0 <= k < |batch.items| ==> !InSettlement(batches, batch.items[k].commission)
    ensures UniqueItems(batches + [batch])
  {
    var n, batches' := |batches|, batches + [batch];
    forall a, j, b, k | IsItem(batches', a, j) && IsItem(batches', b, k)
      && batches'[a].items[j].commission == batches'[b].items[k].commission
      ensures a == b && j == k
    {
      assert a < n ==> IsItem(batches, a, j) && InSettlement(batches, batches[a].items[j].commission);
      assert b < n ==> IsItem(batches, b, k) && InSettlement(batches, batches[b].items[k].commission);
    }
  }

  /** Batches may change status and lose draft items; confirmed ones stay. */
  lemma StillConfirmed(a: seq<SettlementBatch>, b: seq<SettlementBatch>, id: nat)
    requires |a| <= |b| && InConfirmed(a, id)
    requires forall k :: 0 <= k < |a| && a[k].status.Confirmed? ==> b[k] == a[k]
    ensures InConfirmed(b, id)
  {
    var x, k :| IsItem(a, x, k) && a[x].status.Confirmed? && a[x].items[k].commission == id;
    assert IsItem(b, x, k);
  }

  lemma CreateKeepsBatches(env: Env, db: Db, input: Request)
    requires BatchesOk(db.checkouts, db.batches) && Create(env, db, input).Ok?
    ensures BatchesOk(db.checkouts, Create(env, db, input).value.batches)
  {
    hide BatchOk, Create, InSettlement;
    var batches' := Create(env, db, input).value.batches;
    var n := |db.batches|;
    CreatedBatchOk(env, db, input);
    assert batches' == db.batches + [batches'[n]];
    AppendKeepsUnique(db.batches, batches'[n]);
    SumAppend(db.batches, batches'[n], ConfirmedNet());
    SumAppend(db.batches, batches'[n], ConfirmedGross());
    forall i | 0 <= i < |db.checkouts| && StakeOf(db.checkouts[i]).Stake? ensures InConfirmed(batches', i) {
      StillConfirmed(db.batches, batches', i);
    }
  }

  // ---------- Cancelling ----------

  lemma CancelKeepsBatches(db: Db, id: nat)
    requires BatchesOk(db.checkouts, db.batches) && Cancel(db, id).Ok?
    ensures BatchesOk(db.checkouts, Cancel(db, id).value.batches)
  {
    hide BatchOk, StakeOf;
    var batches, batches' := db.batches, Cancel(db, id).value.batches;
    if batches' != batches {
      var b := batches'[id];
      assert BatchOk(db.checkouts, batches[id]);
      CancelledOk(db.checkouts, batches[id]);
      SumUpdate(batches, id, b, ConfirmedNet());
      SumUpdate(batches, id, b, ConfirmedGross());
      assert forall a, j :: IsItem(batches', a, j) ==> IsItem(batches, a, j) && batches'[a] == batches[a];
      forall i | 0 <= i < |db.checkouts| && StakeOf(db.checkouts[i]).Stake? ensures InConfirmed(batches', i) {
        StillConfirmed(batches, batches', i);
      }
    }
  }

  lemma CancelledOk(checkouts: seq<Checkout>, b: SettlementBatch)
    requires BatchOk(checkouts, b)
    ensures BatchOk(checkouts, b.(status := BatchStatus.Cancelled, items := []))
  {
  }

  // ---------- Confirming ----------

  /** Rows stay or get paid, and only the items' rows get paid. */
  ghost predicate Pays(a: seq<Checkout>, b: seq<Checkout>, items: seq<SettlementItem>) {
    && |b| == |a|
    && (forall i :: 0 <= i < |a| ==> b[i] == a[i] || PaidFrom(a[i], b[i]))
    && (forall i :: 0 <= i < |a| && b[i] != a[i] ==> Names(items, i))
    && (forall k :: 0 <= k < |items| ==> Fresh(a, items[k]) && PaidItemOk(b, items[k]))
  }

  predicate Names(items: seq<SettlementItem>, id: nat) {
    exists k :: 0 <= k < |items| && items[k].commission == id
  }

  /** The totals move by what the items are worth. */
  ghost predicate TotalsMove(a: seq<Checkout>, b: seq<Checkout>, items: seq<SettlementItem>) {
    && Sum(b, SettledVnd()) == Sum(a, SettledVnd()) + Sum(items, NetOf())
    && Sum(b, EstimatedPaid()) == Sum(a, EstimatedPaid()) + Sum(items, EstimatedAt(a))
  }

  lemma SumHead<T>(items: seq<T>, f: T -> int)
    requires items != []
    ensures Sum(items, f) == f(items[0]) + Sum(items[1..], f)
  {
    assert items == [items[0]] + items[1..];
    SumConcat([items[0]], items[1..], f);
    assert [items[0]] == [] + [items[0]];
    SumAppend([], items[0], f);
  }

  /** One paid item. */
  lemma OneItemPays(env: Env, db: Db, item: SettlementItem)
    requires Core(env, db) && ConfirmItem(env, db, item).Ok?
    ensures var b := ConfirmItem(env, db, item).value.checkouts;
      && Pays(db.checkouts, b, [item])
      && Sum(b, SettledVnd()) == Sum(db.checkouts, SettledVnd()) + item.netVnd
      && Sum(b, EstimatedPaid()) == Sum(db.checkouts, EstimatedPaid()) + EstimatedAt(db.checkouts)(item)
  {
    hide RowOk, LedgerOk, BooksOk, ReviewIffOpen, OpenIssuesCurrent, OnePaid, UniqueCheckouts, ProviderBlockers;
    hide ConfirmItem;
    ConfirmItemExact(env, db, item);
    ConfirmItemKeepsCore(env, db, item);
    var id, row := item.commission, PaidRow(db.checkouts, item);
    assert RowOk(env, db.checkouts[id]);
    PaidRowOk(env, db.checkouts[id], item.netVnd);
    SumUpdate(db.checkouts, id, row, SettledVnd());
    SumUpdate(db.checkouts, id, row, EstimatedPaid());
    assert [item][0].commission == id;
  }

  lemma PaysCompose(a: seq<Checkout>, m: seq<Checkout>, b: seq<Checkout>, items: seq<SettlementItem>)
    requires items != [] && Pays(a, m, [items[0]]) && Pays(m, b, items[1..])
    ensures Pays(a, b, items)
    ensures forall k :: 1 <= k < |items| ==> EstimatedAt(m)(items[k]) == EstimatedAt(a)(items[k])
  {
    hide StakeOf;
    assert [items[0]][0] == items[0];
    assert Fresh(a, items[0]) && PaidItemOk(m, items[0]);
    forall i | 0 <= i < |a| ensures b[i] == a[i] || PaidFrom(a[i], b[i]) {
      assert m[i] == a[i] || PaidFrom(a[i], m[i]);
      assert b[i] == m[i] || PaidFrom(m[i], b[i]);
    }
    forall i | 0 <= i < |a| && b[i] != a[i] ensures Names(items, i) {
      if m[i] != a[i] {
        assert Names([items[0]], i);
        assert items[0].commission == i;
      } else {
        assert Names(items[1..], i);
        var k :| 0 <= k < |items[1..]| && items[1..][k].commission == i;
        assert items[k + 1].commission == i;
      }
    }
    forall k | 0 <= k < |items| ensures Fresh(a, items[k]) && PaidItemOk(b, items[k]) {
      if k == 0 {
        PaidStays(m, b, items[0]);
      } else {
        assert Fresh(m, items[1..][k - 1]) && PaidItemOk(b, items[1..][k - 1]);
      }
    }
    forall k | 1 <= k < |items| ensures EstimatedAt(m)(items[k]) == EstimatedAt(a)(items[k]) {
      assert Fresh(m, items[1..][k - 1]);
    }
  }

  /** A paid row is not paid again. */
  lemma PaidStays(m: seq<Checkout>, b: seq<Checkout>, item: SettlementItem)
    requires |b| == |m| && PaidItemOk(m, item)
    requires b[item.commission] == m[item.commission] || PaidFrom(m[item.commission], b[item.commission])
    ensures PaidItemOk(b, item)
  {
  }

  /** What confirming a list of items does, and that it keeps the core invariants all along. */
  lemma {:induction false} ConfirmItemsPay(env: Env, db: Db, items: seq<SettlementItem>)
    requires Core(env, db) && ConfirmItems(env, db, items).Ok?
    ensures Core(env, ConfirmItems(env, db, items).value)
    ensures Pays(db.checkouts, ConfirmItems(env, db, items).value.checkouts, items)
    ensures TotalsMove(db.checkouts, ConfirmItems(env, db, items).value.checkouts, items)
    decreases |items|
  {
    hide Core, Pays, ConfirmItem, SettledVnd, EstimatedPaid, EstimatedAt, NetOf;
    if items == [] {
      NothingPaid(db.checkouts);
    } else {
      var m := ConfirmItem(env, db, items[0]).value;
      var b := ConfirmItems(env, db, items).value.checkouts;
      ConfirmItemKeepsCore(env, db, items[0]);
      OneItemPays(env, db, items[0]);
      ConfirmItemsPay(env, m, items[1..]);
      PaysCompose(db.checkouts, m.checkouts, b, items);
      SumHead(items, NetOf());
      SumHead(items, EstimatedAt(db.checkouts));
      SumCongruent(items[1..], items[1..], EstimatedAt(m.checkouts), EstimatedAt(db.checkouts));
      NetOfItem(items[0]);
    }
  }

  lemma NothingPaid(checkouts: seq<Checkout>)
    ensures Pays(checkouts, checkouts, [])
  {
  }

  lemma NetOfItem(item: SettlementItem)
    ensures NetOf()(item) == item.netVnd
  {
  }

  /** Batches other than the one confirmed do not notice. */
  lemma OtherBatchOk(a: seq<Checkout>, b: seq<Checkout>, items: seq<SettlementItem>, batch: SettlementBatch)
    requires Pays(a, b, items) && BatchOk(a, batch)
    requires forall k :: 0 <= k < |batch.items| ==> !Names(items, batch.items[k].commission)
    ensures BatchOk(b, batch)
  {
    hide StakeOf, PaidFrom;
    forall k | 0 <= k < |batch.items| && batch.items[k].commission < |a|
      ensures b[batch.items[k].commission] == a[batch.items[k].commission]
    {
    }
    SumCongruent(batch.items, batch.items, EstimatedAt(a), EstimatedAt(b));
  }

  /** The batch confirmed. */
  lemma ConfirmedBatchOk(a: seq<Checkout>, b: seq<Checkout>, batch: SettlementBatch)
    requires BatchOk(a, batch) && batch.status.Draft? && Pays(a, b, batch.items)
    ensures BatchOk(b, batch.(status := Confirmed))
    ensures Sum(batch.items, EstimatedAt(a)) == batch.grossVnd
  {
    hide StakeOf;
    assert AllFresh(a, batch.items);
    forall k | 0 <= k < |batch.items| ensures EstimatedAt(a)(batch.items[k]) == EstimatedAt(b)(batch.items[k]) {
      var i := batch.items[k].commission;
      assert Fresh(a, batch.items[k]);
      assert b[i] == a[i] || PaidFrom(a[i], b[i]);
    }
    SumCongruent(batch.items, batch.items, EstimatedAt(a), EstimatedAt(b));
  }

  lemma ConfirmUpdatesBatches(a: seq<Checkout>, b: seq<Checkout>, batches: seq<SettlementBatch>, id: nat)
    requires BatchesOk(a, batches) && id < |batches| && batches[id].status.Draft?
    requires Pays(a, b, batches[id].items)
    ensures EachBatchOk(b, batches[id := batches[id].(status := Confirmed)])
    ensures UniqueItems(batches[id := batches[id].(status := Confirmed)])
  {
    hide BatchOk, Pays, StakeOf;
    var batches' := batches[id := batches[id].(status := Confirmed)];
    forall k | 0 <= k < |batches| ensures BatchOk(b, batches'[k]) {
      if k == id {
        ConfirmedBatchOk(a, b, batches[id]);
      } else {
        forall j | 0 <= j < |batches[k].items| ensures !Names(batches[id].items, batches[k].items[j].commission) {
          assert IsItem(batches, k, j);
          assert forall l :: 0 <= l < |batches[id].items| ==> IsItem(batches, id, l);
        }
        OtherBatchOk(a, b, batches[id].items, batches[k]);
      }
    }
    assert forall x, y :: IsItem(batches', x, y) <==> IsItem(batches, x, y);
  }

  lemma PaidIsInConfirmed(a: seq<Checkout>, b: seq<Checkout>, batches: seq<SettlementBatch>, id: nat, i: nat)
    requires BatchesOk(a, batches) && id < |batches| && batches[id].status.Draft?
    requires Pays(a, b, batches[id].items) && i < |b| && StakeOf(b[i]).Stake?
    ensures InConfirmed(batches[id := batches[id].(status := Confirmed)], i)
  {
    hide BatchOk, StakeOf, UniqueItems;
    var batches' := batches[id := batches[id].(status := Confirmed)];
    if b[i] != a[i] {
      assert Names(batches[id].items, i);
      var k :| 0 <= k < |batches[id].items| && batches[id].items[k].commission == i;
      assert IsItem(batches', id, k);
    } else {
      StillConfirmed(batches, batches', i);
    }
  }

  /** Confirming a batch keeps all invariants. */
  lemma ConfirmKeepsInv(env: Env, db: Db, id: nat)
    requires Inv(env, db) && Confirm(env, db, id).Ok?
    ensures Inv(env, Confirm(env, db, id).value)
  {
    hide Core, BatchOk, ConfirmItems, Pays, StakeOf;
    var batch := db.batches[id];
    if batch.status.Draft? {
      var paid := ConfirmItems(env, db, batch.items).value;
      var db' := Confirm(env, db, id).value;
      ConfirmItemsPay(env, db, batch.items);
      CoreIgnoresBatches(env, paid, db'.batches);
      ConfirmUpdatesBatches(db.checkouts, paid.checkouts, db.batches, id);
      assert BatchOk(db.checkouts, batch);
      ConfirmedBatchOk(db.checkouts, paid.checkouts, batch);
      SumUpdate(db.batches, id, batch.(status := Confirmed), ConfirmedNet());
      SumUpdate(db.batches, id, batch.(status := Confirmed), ConfirmedGross());
      forall i | 0 <= i < |db'.checkouts| && StakeOf(db'.checkouts[i]).Stake? ensures InConfirmed(db'.batches, i) {
        PaidIsInConfirmed(db.checkouts, paid.checkouts, db.batches, id, i);
      }
    }
  }

  lemma CoreIgnoresBatches(env: Env, db: Db, batches: seq<SettlementBatch>)
    requires Core(env, db)
    ensures Core(env, db.(batches := batches))
  {
    hide RowsOk, LedgerOk, BooksOk, ReviewIffOpen, OpenIssuesCurrent, OnePaid, UniqueCheckouts;
  }
}
