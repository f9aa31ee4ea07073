/** The commission list says eligible exactly for the rows a settlement would accept. */
module ListView {
  import opened Prelude
  import opened Text
  import opened Contract
  import opened Payment
  import opened Wallets
  import opened Tables
  import opened Eligibility
  import opened Settlement
  import opened Invariants
  import opened Issues
  import opened Runs

  /** The blockers shown for a commission: its own, then its provider's. */
  function Shown(env: Env, db: Db, id: nat): seq<Blocker>
    requires id < |db.checkouts|
  {
    CommissionBlockers(db, id) + ProviderBlockers(env, db, db.checkouts[id])
  }

  /** The blockers shown are those that say something true, in their order. */
  lemma ShownExact(env: Env, db: Db, id: nat)
    requires id < |db.checkouts|
    ensures forall b :: b in Shown(env, db, id) <==> Blocks(env, db, id, b)
    ensures Ranked(Shown(env, db, id))
  {
    hide ProviderBlockers, CommissionBlockers, ProviderBlocks;
    CommissionBlockersExact(env, db, id);
    ProviderBlockersExact(env, db, db.checkouts[id]);
    OwnKinds(env, db, id);
    var own, rest := CommissionBlockers(db, id), ProviderBlockers(env, db, db.checkouts[id]);
    forall i, j | 0 <= i < j < |own + rest| ensures Rank((own + rest)[i]) < Rank((own + rest)[j]) {
      if i < |own| <= j { assert own[i] in own && rest[j - |own|] in rest; }
    }
  }

  /** A provider's blockers come after the commission's own. */
  lemma OwnKinds(env: Env, db: Db, id: nat)
    requires id < |db.checkouts|
    ensures forall b :: ProviderBlocks(env, db, db.checkouts[id], b) ==> Rank(b) > 2
    ensures forall b :: Rank(b) > 2 ==> (Blocks(env, db, id, b) <==> ProviderBlocks(env, db, db.checkouts[id], b))
  {
    hide FullyPaid;
  }

  function RowsOf(checkouts: seq<Checkout>, ids: seq<nat>): (rows: seq<Checkout>)
    requires InRange(ids, |checkouts|)
    ensures |rows| == |ids|
    ensures forall k :: 0 <= k < |ids| ==> rows[k] == checkouts[ids[k]]
  {
    seq(|ids|, k requires 0 <= k < |ids| => checkouts[ids[k]])
  }

  /** What the page shows for a commission: its own blockers, then the entry of its key in the batched map. */
  function ShownOnPage(env: Env, db: Db, ids: seq<nat>, k: nat): seq<Blocker>
    requires InRange(ids, |db.checkouts|) && k < |ids|
  {
    var rows := RowsOf(db.checkouts, ids);
    var output := Batched(env, db, SupportedIds(rows), rows);
    var key := JoinKey(rows[k].provider, rows[k].checkoutId);
    CommissionBlockers(db, ids[k]) + if key in output then output[key] else []
  }

  /** One page of the commission list: a missing key of the batched map counts as no blockers. */
  method ListPage(env: Env, db: Db, ids: seq<nat>) returns (page: seq<seq<Blocker>>)
    requires InRange(ids, |db.checkouts|)
    ensures |page| == |ids|
    ensures forall k :: 0 <= k < |ids| ==> page[k] == ShownOnPage(env, db, ids, k)
    ensures ListOk(db, RowsOf(db.checkouts, ids)) ==> forall k :: 0 <= k < |ids| ==> page[k] == Shown(env, db, ids[k])
  {
    hide CommissionBlockers, ProviderBlockers, Batched, SupportedIds, ListOk, JoinKey;
    var rows := RowsOf(db.checkouts, ids);
    var blockers := BatchBlockers(env, db, rows);
    page := [];
    for k := 0 to |ids|
      invariant |page| == k
      invariant forall j :: 0 <= j < k ==> page[j] == ShownOnPage(env, db, ids, j)
    {
      var row := rows[k];
      var key := JoinKey(row.provider, row.checkoutId);
      var provider := if key in blockers then blockers[key] else [];
      page := page + [CommissionBlockers(db, ids[k]) + provider];
    }
    if ListOk(db, rows) {
      BatchExact(env, db, rows);
      forall k | 0 <= k < |ids| ensures page[k] == Shown(env, db, ids[k]) {
        assert Listed(env, db, blockers, rows[k]);
      }
    }
  }

  lemma DigitsAfterPrefix(r: Checkout)
    requires r.provider == ProviderScope(r.accountId) && AllDigits(r.accountId)
    ensures WellFormedProvider(r.provider)
  {
    assert r.provider[|PROVIDER_PREFIX|..] == r.accountId;
  }

  /** Any page of any reachable database can be listed. */
  lemma ReachablePage(env: Env, events: seq<Event>, ids: seq<nat>)
    requires InRange(ids, |Run(env, EMPTY, events).checkouts|)
    ensures ListOk(Run(env, EMPTY, events), RowsOf(Run(env, EMPTY, events).checkouts, ids))
  {
    hide Run, RowsOk, LedgerOk, BooksOk, ReviewIffOpen, OnePaid, BatchesOk, WellFormedProvider;
    Reachable(env, events);
    var db := Run(env, EMPTY, events);
    WellFormedRows(env, db.checkouts);
    forall k | 0 <= k < |db.issues| && db.issues[k].open ensures WellFormedProvider(db.issues[k].provider) {
      assert Current(db.checkouts, db.issues[k]);
    }
    var rows := RowsOf(db.checkouts, ids);
    forall c, d | c in rows && d in rows && SameCheckout(c, d.provider, d.checkoutId) ensures c == d {
      var i :| 0 <= i < |ids| && rows[i] == c;
      var j :| 0 <= j < |ids| && rows[j] == d;
      OnlyOne(db.checkouts, ids[i], ids[j]);
    }
  }

  lemma WellFormedRows(env: Env, checkouts: seq<Checkout>)
    requires RowsOk(env, checkouts)
    ensures forall i :: 0 <= i < |checkouts| ==> WellFormedProvider(checkouts[i].provider)
  {
    hide PaymentBlockers, WellFormedProvider, Coherent;
    forall i | 0 <= i < |checkouts| ensures WellFormedProvider(checkouts[i].provider) {
      assert RowOk(env, checkouts[i]);
      DigitsAfterPrefix(checkouts[i]);
    }
  }

  /** A row is shown as eligible exactly when the row guards of settlement creation accept it. */
  lemma EligibleIffAccepted(env: Env, db: Db, id: nat)
    requires id < |db.checkouts|
    ensures Shown(env, db, id) == [] <==> RowsEligible(db, [id]) && ProvidersEligible(env, db, [id])
  {
    hide ProviderBlockers, CommissionBlockers;
    assert [id][0] == id;
  }
}
