/** From the provider's pages to the stored checkouts. */
module Pipeline {
  import opened Prelude
  import opened Contract
  import opened Digests
  import opened Payment
  import opened Tables
  import opened Engine
  import opened Ingest
  import opened Invariants
  import opened Wallets
  import opened Runs
  import opened CommissionTheorems

  /** The checkout is stored under the account, with exactly its rows among those received, and their amount. */
  ghost predicate StoredRows(checkouts: seq<Checkout>, accountId: string, rows: seq<Item>, checkoutId: string) {
    exists i :: 0 <= i < |checkouts|
      && SameCheckout(checkouts[i], ProviderScope(accountId), checkoutId)
      && multiset(checkouts[i].payload) == multiset(RowsOf(rows, checkoutId))
      && checkouts[i].netRaw == Amount(RowsOf(rows, checkoutId))
  }

  lemma GroupsPublishable(groups: seq<Group>, rows: seq<Item>)
    requires Partitions(groups, rows)
    ensures GroupsFilled(groups) && DistinctGroups(groups)
  {
    hide RowsOf, FindGroup;
  }

  lemma GroupIsStored(env: Env, db: Db, sync: Sync, g: Group, rows: seq<Item>)
    requires RowsOk(env, db.checkouts) && Stored(db, sync, g) && g.rows == RowsOf(rows, g.checkoutId)
    ensures StoredRows(db.checkouts, sync.accountId, rows, g.checkoutId)
  {
    hide RowsOf, DigestOf, Coherent, PaymentBlockers;
    var at := RowAt(db, sync, g);
    assert RowOk(env, db.checkouts[at.value]);
    SumPermutation(db.checkouts[at.value].payload, g.rows, CommissionVnd());
    assert SameCheckout(db.checkouts[at.value], ProviderScope(sync.accountId), g.checkoutId);
  }

  /**
   * What a completed sync means. When the ingest loop succeeds and its groups are published, every
   * checkout the provider reported on any page is stored with exactly the rows reported for it.
   */
  lemma SyncStoresEverything(env: Env, events: seq<Event>, provider: Provider, range: Range, sync: Sync)
        returns (n: nat)
    requires Injective(env.json) && IngestFrom(provider, range, 1).Ok?
    requires Publish(env, Run(env, EMPTY, events), sync, IngestFrom(provider, range, 1).value.groups).Ok?
    ensures var groups := IngestFrom(provider, range, 1).value.groups; var rows := Received(provider, n);
      && 1 <= n <= 10000 && provider(n).Ok? && |groups| == provider(n).value.total
      && (forall k :: 0 <= k < |rows| ==>
            StoredRows(Publish(env, Run(env, EMPTY, events), sync, groups).value.checkouts, sync.accountId, rows,
                       rows[k].checkoutId))
  {
    hide Run, RowsOk, LedgerOk, BooksOk, ReviewIffOpen, OpenIssuesCurrent, OnePaid, UniqueCheckouts, BatchesOk;
    hide IngestFrom, Received, RowsOf, FindGroup, PublishAll, Stored, StoredRows;
    n := IngestGuarantee(provider, range);
    Reachable(env, events);
    var db := Run(env, EMPTY, events);
    var groups, rows := IngestFrom(provider, range, 1).value.groups, Received(provider, n);
    GroupsPublishable(groups, rows);
    var db' := Publish(env, db, sync, groups).value;
    forall k | 0 <= k < |rows| ensures StoredRows(db'.checkouts, sync.accountId, rows, rows[k].checkoutId) {
      var j := FindGroup(groups, rows[k].checkoutId).value;
      assert groups[j].checkoutId == rows[k].checkoutId;
      PublishAllStores(env, db, sync, groups, j);
      PublishKeepsCore(env, db, sync, groups);
      GroupIsStored(env, db', sync, groups[j], rows);
    }
  }
}
