/** What publishing, reviewing and settling guarantee about commissions in every reachable database. */
module CommissionTheorems {
  import opened Prelude
  import opened Contract
  import opened Digests
  import opened Money
  import opened Payment
  import opened Wallets
  import opened Tables
  import opened Engine
  import opened Eligibility
  import opened Settlement
  import opened Invariants
  import opened Rows
  import opened Issues
  import opened CoreSteps
  import opened Runs

  lemma RowReachable(env: Env, events: seq<Event>, i: nat)
    requires i < |Run(env, EMPTY, events).checkouts|
    ensures RowOk(env, Run(env, EMPTY, events).checkouts[i])
  {
    hide Run, RowOk, LedgerOk, BooksOk, ReviewIffOpen, OpenIssuesCurrent, UniqueCheckouts, OnePaid, BatchesOk;
    Reachable(env, events);
  }

  /**
   * Commission and cashback fit together: a cashback row exists exactly for an attributed commission, its
   * state follows the commission's, and its shares add up to the estimate before payment and to the
   * settled amount after it, the user's share being the rounded-down fraction.
   */
  lemma CommissionCoherence(env: Env, events: seq<Event>, i: nat)
    requires i < |Run(env, EMPTY, events).checkouts|
    ensures var c := Run(env, EMPTY, events).checkouts[i].commission;
      && (c.user.Some? <==> c.cashback.Some?)
      && (c.cashback.Some? ==>
            var b := c.cashback.value; var amount := if EverPaid(c) then c.settledVnd else c.estimatedVnd;
            && b.userAmount + b.platformAmount == amount
            && FULL_BPS * b.userAmount <= amount * b.userBps < FULL_BPS * (b.userAmount + 1)
            && (b.state.CashbackValidated? <==> c.state.Validated?)
            && (b.state.CashbackRejected? <==> c.state.Rejected?)
            && (b.state.CashbackPending? <==> c.state.Estimated? || c.state.ManualReview?)
            && (b.state.CashbackAvailable? <==> c.state.Paid?)
            && (b.state.CashbackReversed? <==> c.state.Reversed?))
  {
    hide Run, SourceOk, PaymentBlockers;
    RowReachable(env, events, i);
  }

  /** A validated commission has a user, a cashback and rows that are void or paid, at least one paid. */
  lemma ValidatedIsPayable(env: Env, events: seq<Event>, i: nat)
    requires i < |Run(env, EMPTY, events).checkouts|
    requires Run(env, EMPTY, events).checkouts[i].commission.state.Validated?
    ensures var r := Run(env, EMPTY, events).checkouts[i];
      r.commission.user.Some? && r.commission.cashback.Some? && FullyPaid(env, r.payload)
  {
    hide Run, SourceOk, PaymentBlockers, FullyPaid;
    RowReachable(env, events, i);
    PaymentGate(env, Run(env, EMPTY, events).checkouts[i].payload);
  }

  /** No external checkout is ever paid twice, whatever provider accounts reported it. */
  lemma NoDoublePayment(env: Env, events: seq<Event>, i: nat, j: nat)
    requires var c := Run(env, EMPTY, events).checkouts;
      i < |c| && j < |c| && c[i].checkoutId == c[j].checkoutId && EverPaid(c[i].commission) && EverPaid(c[j].commission)
    ensures i == j
  {
    hide Run, RowsOk, LedgerOk, BooksOk, ReviewIffOpen, OpenIssuesCurrent, UniqueCheckouts, BatchesOk;
    Reachable(env, events);
  }

  // ---------- Issues ----------

  /**
   * Issues and commissions fit together: an unpaid commission is under manual review exactly while its
   * checkout has an open issue, and every open issue speaks of the stored snapshot of a checkout.
   */
  lemma IssueCoherence(env: Env, events: seq<Event>)
    ensures var db := Run(env, EMPTY, events);
      && (forall i :: 0 <= i < |db.checkouts| && !EverPaid(db.checkouts[i].commission) ==>
            (db.checkouts[i].commission.state.ManualReview? <==>
              exists k :: 0 <= k < |db.issues| && db.issues[k].open
                && db.issues[k].provider == db.checkouts[i].provider
                && db.issues[k].checkoutId == db.checkouts[i].checkoutId))
      && (forall k :: 0 <= k < |db.issues| && db.issues[k].open ==>
            exists i :: 0 <= i < |db.checkouts| && db.checkouts[i].provider == db.issues[k].provider
              && db.checkouts[i].checkoutId == db.issues[k].checkoutId
              && db.checkouts[i].sourceHash == db.issues[k].sourceHash)
  {
    hide Run, RowsOk, LedgerOk, BooksOk, OnePaid, UniqueCheckouts, BatchesOk;
    Reachable(env, events);
    var db := Run(env, EMPTY, events);
    forall i | 0 <= i < |db.checkouts| && !EverPaid(db.checkouts[i].commission)
      ensures db.checkouts[i].commission.state.ManualReview? <==>
        exists k :: 0 <= k < |db.issues| && db.issues[k].open
          && db.issues[k].provider == db.checkouts[i].provider && db.issues[k].checkoutId == db.checkouts[i].checkoutId
    {
      assert HasOpenIssue(db.issues, db.checkouts[i].provider, db.checkouts[i].checkoutId) <==>
        db.checkouts[i].commission.state.ManualReview?;
    }
    forall k | 0 <= k < |db.issues| && db.issues[k].open ensures Current(db.checkouts, db.issues[k]) {}
  }

  /**
   * No stuck reviews. An open issue speaks of the stored snapshot of its checkout, and excluding it at the
   * current revision works exactly when the commission was never paid, which is then under review.
   */
  lemma ExcludeExact(env: Env, events: seq<Event>, k: nat, input: Review)
    requires var db := Run(env, EMPTY, events); k < |db.issues| && db.issues[k].open
    requires input.action.Exclude?
    ensures var db := Run(env, EMPTY, events);
      var at := FindCheckout(db.checkouts, db.issues[k].provider, db.issues[k].checkoutId);
      && at.Some?
      && db.checkouts[at.value].sourceHash == db.issues[k].sourceHash
      && (ReviewIssue(env, db, k, input).Ok? <==>
            input.revision == db.checkouts[at.value].revision && !EverPaid(db.checkouts[at.value].commission))
      && (!EverPaid(db.checkouts[at.value].commission) ==> db.checkouts[at.value].commission.state.ManualReview?)
  {
    hide Run, RowOk, LedgerOk, BooksOk, OnePaid, BatchesOk, Close;
    Reachable(env, events);
    var db := Run(env, EMPTY, events);
    var issue := db.issues[k];
    var at := FindCheckout(db.checkouts, issue.provider, issue.checkoutId);
    assert Current(db.checkouts, issue);
    var i :| 0 <= i < |db.checkouts| && SameCheckout(db.checkouts[i], issue.provider, issue.checkoutId)
      && db.checkouts[i].sourceHash == issue.sourceHash;
    OnlyOne(db.checkouts, i, at.value);
    assert RowOk(env, db.checkouts[i]);
    KnownProvider(env, db.checkouts[i]);
    assert IssueOf(issue, db.checkouts[i].provider, db.checkouts[i].checkoutId);
  }

  lemma KnownProvider(env: Env, r: Checkout)
    requires RowOk(env, r)
    ensures IsAddLiveTag(r.provider)
  {
    assert r.provider == PROVIDER_PREFIX + r.accountId;
  }

  // ---------- Snapshots ----------

  /** The group reports the stored rows of the checkout, in whatever order. */
  ghost predicate Stored(db: Db, sync: Sync, g: Group) {
    var at := RowAt(db, sync, g);
    at.Some? && multiset(db.checkouts[at.value].payload) == multiset(g.rows)
  }

  /** Publishing skips a group exactly when it reports the stored rows, even after a review. */
  lemma UnchangedIffStored(env: Env, db: Db, sync: Sync, g: Group)
    requires RowsOk(env, db.checkouts) && Injective(env.json)
    ensures Unchanged(env, db, sync, g) <==> Stored(db, sync, g)
  {
    var at := RowAt(db, sync, g);
    if at.Some? {
      assert RowOk(env, db.checkouts[at.value]);
      DigestIffSameRows(env.json, db.checkouts[at.value].payload, g.rows);
    }
  }

  /** The row a group is published into, exactly. */
  lemma PublishOneWrites(env: Env, db: Db, sync: Sync, g: Group)
    requires db.credential.Some? && PublishOne(env, db, sync, g).Ok? && !Unchanged(env, db, sync, g)
    ensures var at := RowAt(db, sync, g); var db' := PublishOne(env, db, sync, g).value;
      exists row :: db'.checkouts == Put(db.checkouts, at, row)
        && SameCheckout(row, ProviderScope(sync.accountId), g.checkoutId)
        && row.payload == g.rows && row.sourceHash == DigestOf(env.json, g.rows)
        && row.revision == (if at.Some? then db.checkouts[at.value].revision + 1 else 1)
  {
    hide Reverse, FindingOf, PublishedCommission, ReversedCommission, DigestOf, Close, Raise;
    var at := RowAt(db, sync, g);
    var db' := PublishOne(env, db, sync, g).value;
    var row := db'.checkouts[if at.Some? then at.value else |db.checkouts|];
    assert db'.checkouts == Put(db.checkouts, at, row);
  }

  /** After publishing a group, its rows are the stored ones. */
  lemma PublishStores(env: Env, db: Db, sync: Sync, g: Group)
    requires Core(env, db) && db.credential.Some? && Injective(env.json)
    requires WellFormedAccount(sync.accountId) && g.rows != []
    ensures PublishOne(env, db, sync, g).Ok?
    ensures Stored(PublishOne(env, db, sync, g).value, sync, g)
  {
    hide PublishOne, RowOk, LedgerOk, BooksOk, ReviewIffOpen, OpenIssuesCurrent, OnePaid, Bumped;
    PublishOneKeepsCore(env, db, sync, g);
    var db' := PublishOne(env, db, sync, g).value;
    UnchangedIffStored(env, db, sync, g);
    if Unchanged(env, db, sync, g) {
      SkipsUnchanged(env, db, sync, g);
    } else {
      PublishOneWrites(env, db, sync, g);
      var at := RowAt(db, sync, g);
      var row :| db'.checkouts == Put(db.checkouts, at, row)
        && SameCheckout(row, ProviderScope(sync.accountId), g.checkoutId) && row.payload == g.rows;
      var here := if at.Some? then at.value else |db.checkouts|;
      assert db'.checkouts[here] == row;
      OnlyOne(db'.checkouts, here, RowAt(db', sync, g).value);
    }
  }

  lemma SkipsUnchanged(env: Env, db: Db, sync: Sync, g: Group)
    requires db.credential.Some? && Unchanged(env, db, sync, g)
    ensures PublishOne(env, db, sync, g) == Ok(db)
  {
    hide FindingOf, PublishFinding;
  }

  /** Publishing one checkout leaves the others stored as they were. */
  lemma PublishKeepsStored(env: Env, db: Db, sync: Sync, g: Group, other: Group)
    requires Core(env, db) && db.credential.Some? && WellFormedAccount(sync.accountId) && g.rows != []
    requires other.checkoutId != g.checkoutId && Stored(db, sync, other)
    ensures PublishOne(env, db, sync, g).Ok?
    ensures Stored(PublishOne(env, db, sync, g).value, sync, other)
  {
    hide PublishOne, RowOk, LedgerOk, BooksOk, ReviewIffOpen, OpenIssuesCurrent, OnePaid, Bumped;
    PublishOneKeepsCore(env, db, sync, g);
    var db' := PublishOne(env, db, sync, g).value;
    if Unchanged(env, db, sync, g) {
      SkipsUnchanged(env, db, sync, g);
    } else {
      PublishOneWrites(env, db, sync, g);
      var at := RowAt(db, sync, g);
      var i := RowAt(db, sync, other).value;
      var row :| db'.checkouts == Put(db.checkouts, at, row)
        && SameCheckout(row, ProviderScope(sync.accountId), g.checkoutId) && row.payload == g.rows;
      assert db'.checkouts[i] == db.checkouts[i];
      OnlyOne(db'.checkouts, i, RowAt(db', sync, other).value);
    }
  }

  ghost predicate DistinctGroups(groups: seq<Group>) {
    forall i, j :: 0 <= i < j < |groups| ==> groups[i].checkoutId != groups[j].checkoutId
  }

  lemma {:induction false} PublishAllKeepsStored(env: Env, db: Db, sync: Sync, groups: seq<Group>, other: Group)
    requires Core(env, db) && db.credential.Some? && WellFormedAccount(sync.accountId) && GroupsFilled(groups)
    requires Stored(db, sync, other)
    requires forall k :: 0 <= k < |groups| ==> groups[k].checkoutId != other.checkoutId
    ensures PublishAll(env, db, sync, groups).Ok?
    ensures Stored(PublishAll(env, db, sync, groups).value, sync, other)
    decreases |groups|
  {
    hide Core, PublishOne, Stored;
    if groups != [] {
      PublishOneKeepsCore(env, db, sync, groups[0]);
      PublishKeepsStored(env, db, sync, groups[0], other);
      PublishAllKeepsStored(env, PublishOne(env, db, sync, groups[0]).value, sync, groups[1..], other);
    }
  }

  /** After publishing a snapshot, every one of its groups is stored. */
  lemma {:induction false} PublishAllStores(env: Env, db: Db, sync: Sync, groups: seq<Group>, k: nat)
    requires Core(env, db) && db.credential.Some? && WellFormedAccount(sync.accountId)
    requires GroupsFilled(groups) && DistinctGroups(groups) && k < |groups| && Injective(env.json)
    ensures PublishAll(env, db, sync, groups).Ok?
    ensures Stored(PublishAll(env, db, sync, groups).value, sync, groups[k])
    decreases |groups|
  {
    hide Core, PublishOne, Stored;
    var first := PublishOne(env, db, sync, groups[0]);
    PublishOneKeepsCore(env, db, sync, groups[0]);
    if k == 0 {
      PublishStores(env, db, sync, groups[0]);
      PublishAllKeepsStored(env, first.value, sync, groups[1..], groups[0]);
    } else {
      PublishAllStores(env, first.value, sync, groups[1..], k - 1);
    }
  }

  lemma {:induction false} StoredIsSkipped(env: Env, db: Db, sync: Sync, groups: seq<Group>)
    requires RowsOk(env, db.checkouts) && Injective(env.json) && db.credential.Some?
    requires forall k :: 0 <= k < |groups| ==> Stored(db, sync, groups[k])
    ensures PublishAll(env, db, sync, groups) == Ok(db)
    decreases |groups|
  {
    hide PublishOne, Stored, RowsOk, Unchanged;
    if groups != [] {
      UnchangedIffStored(env, db, sync, groups[0]);
      SkipsUnchanged(env, db, sync, groups[0]);
      StoredIsSkipped(env, db, sync, groups[1..]);
    }
  }

  /** The later snapshot reports the same rows for every checkout it names. */
  ghost predicate SameRows(groups: seq<Group>, again: seq<Group>) {
    forall k :: 0 <= k < |again| ==>
      exists j :: 0 <= j < |groups| && groups[j].checkoutId == again[k].checkoutId
        && multiset(groups[j].rows) == multiset(again[k].rows)
  }

  lemma StoredPermutation(db: Db, sync: Sync, g: Group, h: Group)
    requires Stored(db, sync, g) && h.checkoutId == g.checkoutId && multiset(h.rows) == multiset(g.rows)
    ensures Stored(db, sync, h)
  {
  }

  /**
   * Publishing is idempotent up to order: publishing a snapshot again, with checkouts and rows in any
   * order, changes nothing at all.
   */
  lemma RepublishChangesNothing(env: Env, db: Db, sync: Sync, groups: seq<Group>, again: seq<Group>)
    requires Core(env, db) && Publish(env, db, sync, groups).Ok? && Injective(env.json)
    requires GroupsFilled(groups) && DistinctGroups(groups) && SameRows(groups, again)
    ensures Publish(env, Publish(env, db, sync, groups).value, sync, again) == Publish(env, db, sync, groups)
  {
    hide RowsOk, LedgerOk, BooksOk, ReviewIffOpen, OpenIssuesCurrent, OnePaid, UniqueCheckouts, PublishAll, Stored;
    var db' := Publish(env, db, sync, groups).value;
    PublishKeepsCore(env, db, sync, groups);
    forall k | 0 <= k < |again| ensures Stored(db', sync, again[k]) {
      var j :| 0 <= j < |groups| && groups[j].checkoutId == again[k].checkoutId
        && multiset(groups[j].rows) == multiset(again[k].rows);
      PublishAllStores(env, db, sync, groups, j);
      StoredPermutation(db', sync, groups[j], again[k]);
    }
    StoredIsSkipped(env, db', sync, again);
  }

  /**
   * Publishing what the ingest loop hands over fails only when the credential changed; no wallet or share
   * computation on the way can fail.
   */
  lemma PublishExact(env: Env, events: seq<Event>, sync: Sync, groups: seq<Group>)
    requires GroupsFilled(groups)
    ensures var db := Run(env, EMPTY, events);
      Publish(env, db, sync, groups).Ok? <==>
        && db.credential.Some?
        && db.credential.value.version == sync.credentialVersion
        && db.credential.value.accountId == sync.accountId
    ensures var db := Run(env, EMPTY, events);
      Publish(env, db, sync, groups).Err? ==>
        Publish(env, db, sync, groups).error == (if db.credential.None? then NotFound else CredentialChanged)
  {
    hide Run, RowsOk, LedgerOk, BooksOk, ReviewIffOpen, OpenIssuesCurrent, OnePaid, UniqueCheckouts, BatchesOk;
    hide PublishAll;
    Reachable(env, events);
    var db := Run(env, EMPTY, events);
    if db.credential.Some? && db.credential.value.accountId == sync.accountId {
      PublishAllKeepsCore(env, db, sync, groups);
    }
  }

  /** Reporting the stored rows again changes nothing, even after a human review of the checkout. */
  lemma ReviewSurvivesRepublish(env: Env, events: seq<Event>, sync: Sync, groups: seq<Group>)
    requires Injective(env.json)
    requires forall k :: 0 <= k < |groups| ==> Stored(Run(env, EMPTY, events), sync, groups[k])
    requires Publish(env, Run(env, EMPTY, events), sync, groups).Ok?
    ensures Publish(env, Run(env, EMPTY, events), sync, groups) == Ok(Run(env, EMPTY, events))
  {
    hide Run, LedgerOk, BooksOk, ReviewIffOpen, OpenIssuesCurrent, OnePaid, UniqueCheckouts, BatchesOk, PublishAll;
    hide Stored, RowOk;
    Reachable(env, events);
    StoredIsSkipped(env, Run(env, EMPTY, events), sync, groups);
  }

  /** Different rows of a stored checkout are published and raise its revision by one. */
  lemma NewRowsBumpRevision(env: Env, db: Db, sync: Sync, g: Group, i: nat)
    requires Core(env, db) && Injective(env.json) && db.credential.Some?
    requires WellFormedAccount(sync.accountId) && g.rows != []
    requires RowAt(db, sync, g) == Some(i) && multiset(db.checkouts[i].payload) != multiset(g.rows)
    ensures PublishOne(env, db, sync, g).Ok?
    ensures var after := PublishOne(env, db, sync, g).value.checkouts;
      |after| == |db.checkouts| && after[i].revision == db.checkouts[i].revision + 1 && after[i].payload == g.rows
  {
    hide PublishOne, RowOk, LedgerOk, BooksOk, ReviewIffOpen, OpenIssuesCurrent, OnePaid, Bumped;
    PublishOneKeepsCore(env, db, sync, g);
    UnchangedIffStored(env, db, sync, g);
    PublishOneWrites(env, db, sync, g);
  }

  // ---------- Confirmation ----------

  /** Paying one commission changes nothing for another: not its eligibility, and not why it is refused. */
  lemma PayingKeepsOthersPayable(env: Env, db: Db, item: SettlementItem, other: SettlementItem)
    requires Core(env, db) && ConfirmItem(env, db, item).Ok? && other.commission != item.commission
    ensures CoreSteps.Payable(env, ConfirmItem(env, db, item).value, other) <==> CoreSteps.Payable(env, db, other)
    ensures other.commission < |db.checkouts| ==>
      var db' := ConfirmItem(env, db, item).value;
      && |db'.checkouts| == |db.checkouts| && db'.checkouts[other.commission] == db.checkouts[other.commission]
      && ProviderBlockers(env, db', db.checkouts[other.commission]) ==
           ProviderBlockers(env, db, db.checkouts[other.commission])
  {
    hide RowsOk, LedgerOk, BooksOk, ReviewIffOpen, OpenIssuesCurrent, OnePaid, UniqueCheckouts, PaymentBlockers;
    hide ConfirmItem, StakeOf;
    var db' := ConfirmItem(env, db, item).value;
    ConfirmItemExact(env, db, item);
    ConfirmItemKeepsCore(env, db, item);
    if other.commission < |db.checkouts| {
      var row := db.checkouts[other.commission];
      ClaimsKept(db.checkouts, db'.checkouts, item.commission, row.provider, row.checkoutId);
    }
  }

  lemma ClaimsKept(a: seq<Checkout>, b: seq<Checkout>, id: nat, provider: string, checkoutId: string)
    requires id < |a| == |b| && b == a[id := b[id]] && PaidFrom(a[id], b[id])
    ensures ClaimedElsewhere(b, provider, checkoutId) <==> ClaimedElsewhere(a, provider, checkoutId)
  {
    hide StakeOf;
    forall i | 0 <= i < |a|
      ensures a[i].checkoutId == b[i].checkoutId && a[i].provider == b[i].provider
      ensures a[i].commission.state.Rejected? <==> b[i].commission.state.Rejected?
    {
    }
    if ClaimedElsewhere(a, provider, checkoutId) {
      var i :| 0 <= i < |a| && a[i].checkoutId == checkoutId && a[i].provider != provider
        && !a[i].commission.state.Rejected?;
      assert b[i].checkoutId == checkoutId;
    }
  }

  ghost predicate DistinctItems(items: seq<SettlementItem>) {
    forall i, j :: 0 <= i < j < |items| ==> items[i].commission != items[j].commission
  }

  lemma {:induction false} ConfirmItemsExact(env: Env, db: Db, items: seq<SettlementItem>)
    requires Core(env, db) && DistinctItems(items)
    ensures ConfirmItems(env, db, items).Ok? <==> forall k :: 0 <= k < |items| ==> CoreSteps.Payable(env, db, items[k])
    decreases |items|
  {
    hide Core, ConfirmItem, CoreSteps.Payable, ProviderBlockers;
    if items != [] {
      ConfirmItemExact(env, db, items[0]);
      if ConfirmItem(env, db, items[0]).Ok? {
        var m := ConfirmItem(env, db, items[0]).value;
        ConfirmItemKeepsCore(env, db, items[0]);
        forall k | 1 <= k < |items|
          ensures CoreSteps.Payable(env, m, items[1..][k - 1]) <==> CoreSteps.Payable(env, db, items[k])
        {
          PayingKeepsOthersPayable(env, db, items[0], items[k]);
        }
        ConfirmItemsExact(env, m, items[1..]);
      }
    }
  }

  /** What the confirmation asks of an item: an untouched checkout that nothing blocks. */
  ghost predicate ItemDue(env: Env, db: Db, item: SettlementItem) {
    && item.commission < |db.checkouts|
    && db.checkouts[item.commission].revision == item.revisionSnapshot
    && forall b :: !ProviderBlocks(env, db, db.checkouts[item.commission], b)
  }

  /** Why an item cannot be paid: its first blocker, or else its changed revision. */
  ghost predicate RefusesItem(env: Env, db: Db, item: SettlementItem, error: Error) {
    && item.commission < |db.checkouts|
    && var c := db.checkouts[item.commission];
      if error.ProviderBlocked? then BlocksFirst(env, db, c, error.blocker)
      else
        && error == CommissionRevisionChanged && c.revision != item.revisionSnapshot
        && forall b :: !ProviderBlocks(env, db, c, b)
  }

  /** The first `n` items can be paid and the next one cannot, for the reason the error names. */
  ghost predicate StopsAt(env: Env, db: Db, items: seq<SettlementItem>, n: nat, error: Error) {
    && n < |items| && !ItemDue(env, db, items[n])
    && (forall k :: 0 <= k < n ==> ItemDue(env, db, items[k]))
    && RefusesItem(env, db, items[n], error)
  }

  lemma ItemDueExact(env: Env, db: Db, item: SettlementItem)
    requires DraftItemOk(db.checkouts, item) && item.netVnd >= 0
    ensures CoreSteps.Payable(env, db, item) <==> ItemDue(env, db, item)
  {
    hide ProviderBlockers, ProviderBlocks;
    ProviderBlockersExact(env, db, db.checkouts[item.commission]);
  }

  lemma ItemRefused(env: Env, db: Db, item: SettlementItem)
    requires DraftItemOk(db.checkouts, item) && item.netVnd >= 0 && !CoreSteps.Payable(env, db, item)
    ensures ConfirmItem(env, db, item).Err? && RefusesItem(env, db, item, ConfirmItem(env, db, item).error)
  {
    hide ProviderBlockers, ProviderBlocks, BlocksFirst, Post;
    var c := db.checkouts[item.commission];
    ProviderBlockersExact(env, db, c);
    if ProviderBlockers(env, db, c) != [] { FirstListed(env, db, c); }
  }

  /** The items go through in order, and the first that cannot be paid decides the error. */
  lemma {:induction false} ItemsRefused(env: Env, db: Db, items: seq<SettlementItem>) returns (n: nat)
    requires Core(env, db) && DistinctItems(items) && ConfirmItems(env, db, items).Err?
    requires forall k :: 0 <= k < |items| ==> DraftItemOk(db.checkouts, items[k]) && items[k].netVnd >= 0
    ensures StopsAt(env, db, items, n, ConfirmItems(env, db, items).error)
    decreases |items|
  {
    hide Core, ConfirmItem, ProviderBlockers, ItemDue, RefusesItem, DraftItemOk, CoreSteps.Payable;
    ConfirmItemExact(env, db, items[0]);
    ItemDueExact(env, db, items[0]);
    if ConfirmItem(env, db, items[0]).Err? {
      ItemRefused(env, db, items[0]);
      n := 0;
    } else {
      var m := ConfirmItem(env, db, items[0]).value;
      ConfirmItemKeepsCore(env, db, items[0]);
      forall k | 1 <= k < |items|
        ensures DraftItemOk(m.checkouts, items[1..][k - 1])
        ensures ItemDue(env, m, items[1..][k - 1]) <==> ItemDue(env, db, items[k])
        ensures forall e :: RefusesItem(env, m, items[1..][k - 1], e) ==> RefusesItem(env, db, items[k], e)
      {
        SameForOthers(env, db, items[0], items[k]);
      }
      var later := ItemsRefused(env, m, items[1..]);
      n := later + 1;
      forall k | 0 <= k < n ensures ItemDue(env, db, items[k]) {
        if k > 0 { assert ItemDue(env, m, items[1..][k - 1]); }
      }
    }
  }

  lemma SameForOthers(env: Env, db: Db, item: SettlementItem, other: SettlementItem)
    requires Core(env, db) && ConfirmItem(env, db, item).Ok? && other.commission != item.commission
    requires DraftItemOk(db.checkouts, other) && other.netVnd >= 0
    ensures var m := ConfirmItem(env, db, item).value;
      && DraftItemOk(m.checkouts, other)
      && (ItemDue(env, m, other) <==> ItemDue(env, db, other))
      && forall e :: RefusesItem(env, m, other, e) ==> RefusesItem(env, db, other, e)
  {
    hide Core, ConfirmItem, ProviderBlockers, ProviderBlocks, CoreSteps.Payable;
    PayingKeepsOthersPayable(env, db, item, other);
    var m := ConfirmItem(env, db, item).value;
    var c := db.checkouts[other.commission];
    forall b ensures ProviderBlocks(env, db, c, b) <==> ProviderBlocks(env, m, c, b) {
      ProviderBlockersExact(env, db, c);
      ProviderBlockersExact(env, m, c);
    }
  }

  /** The items of a batch, as `DraftItemOk` and distinctness need them. */
  lemma DraftItems(env: Env, db: Db, id: nat)
    requires Inv(env, db) && id < |db.batches| && db.batches[id].status.Draft?
    ensures var items := db.batches[id].items;
      && DistinctItems(items) && Sum(items, NetOf()) == db.batches[id].netVnd
      && forall k :: 0 <= k < |items| ==> DraftItemOk(db.checkouts, items[k]) && items[k].netVnd >= 0
  {
    hide Core, DraftItemOk, PaidItemOk;
    assert BatchOk(db.checkouts, db.batches[id]);
    var items := db.batches[id].items;
    forall i, j | 0 <= i < j < |items| ensures items[i].commission != items[j].commission {
      assert IsItem(db.batches, id, i) && IsItem(db.batches, id, j);
    }
  }

  lemma ConfirmOther(env: Env, db: Db, id: nat)
    requires id < |db.batches| ==> !db.batches[id].status.Draft?
    ensures Confirm(env, db, id) ==
      if !env.settlementEnabled then Err(SettlementDisabled)
      else if id >= |db.batches| then Err(SettlementNotFound)
      else if db.batches[id].status.Confirmed? then Ok(db) else Err(SettlementNotDraft)
  {
  }

  lemma ConfirmDraft(env: Env, db: Db, id: nat)
    requires Inv(env, db) && id < |db.batches| && db.batches[id].status.Draft?
    ensures var items := db.batches[id].items;
      && (Confirm(env, db, id).Ok? <==>
            env.settlementEnabled && forall item :: item in items ==> ItemDue(env, db, item))
      && (Confirm(env, db, id).Err? ==>
            if !env.settlementEnabled then Confirm(env, db, id).error == SettlementDisabled
            else exists n :: StopsAt(env, db, items, n, Confirm(env, db, id).error))
  {
    hide Core, BatchesOk, ConfirmItems, ItemDue, StopsAt, CoreSteps.Payable, DraftItemOk, Sum;
    var items := db.batches[id].items;
    DraftItems(env, db, id);
    ConfirmItemsExact(env, db, items);
    forall k | 0 <= k < |items| ensures CoreSteps.Payable(env, db, items[k]) <==> ItemDue(env, db, items[k]) {
      ItemDueExact(env, db, items[k]);
    }
    if ConfirmItems(env, db, items).Err? { var n := ItemsRefused(env, db, items); }
  }

  /**
   * When a batch can be confirmed: exactly when settlement is enabled and the batch is confirmed already,
   * which changes nothing, or is a draft and, for each of its items, no publish or review touched the
   * checkout since the draft was created and nothing blocks it. The later checks of amounts, states and
   * balances never fail on their own, and the first item in the way decides the error.
   */
  lemma ConfirmExact(env: Env, events: seq<Event>, id: nat)
    ensures var db := Run(env, EMPTY, events);
      Confirm(env, db, id).Ok? <==>
        && env.settlementEnabled && id < |db.batches|
        && (db.batches[id].status.Confirmed? ||
            (db.batches[id].status.Draft? && forall item :: item in db.batches[id].items ==> ItemDue(env, db, item)))
    ensures var db := Run(env, EMPTY, events);
      Confirm(env, db, id).Ok? && db.batches[id].status.Confirmed? ==> Confirm(env, db, id) == Ok(db)
    ensures var db := Run(env, EMPTY, events);
      Confirm(env, db, id).Err? ==>
        var error := Confirm(env, db, id).error;
        if !env.settlementEnabled then error == SettlementDisabled
        else if id >= |db.batches| then error == SettlementNotFound
        else if db.batches[id].status.Cancelled? then error == SettlementNotDraft
        else exists n :: StopsAt(env, db, db.batches[id].items, n, error)
  {
    hide Run, Inv, Confirm, ItemDue, StopsAt;
    Reachable(env, events);
    var db := Run(env, EMPTY, events);
    if id < |db.batches| && db.batches[id].status.Draft? {
      ConfirmDraft(env, db, id);
    } else {
      ConfirmOther(env, db, id);
    }
  }

  /** A paid commission belongs to exactly one confirmed batch, for the amount that was settled. */
  lemma PaidThroughOneBatch(env: Env, events: seq<Event>, i: nat)
    requires i < |Run(env, EMPTY, events).checkouts|
    requires EverPaid(Run(env, EMPTY, events).checkouts[i].commission)
    ensures var db := Run(env, EMPTY, events);
      exists b, k :: IsItem(db.batches, b, k) && db.batches[b].status.Confirmed?
        && db.batches[b].items[k].commission == i
        && db.batches[b].items[k].netVnd == db.checkouts[i].commission.settledVnd
        && (forall a, j :: IsItem(db.batches, a, j) && db.batches[a].items[j].commission == i ==> a == b && j == k)
  {
    hide Run, SourceOk, LedgerOk, BooksOk, ReviewIffOpen, OpenIssuesCurrent, OnePaid, UniqueCheckouts, PaymentBlockers;
    Reachable(env, events);
    var db := Run(env, EMPTY, events);
    assert RowOk(env, db.checkouts[i]);
    assert InConfirmed(db.batches, i);
    var b, k :| IsItem(db.batches, b, k) && db.batches[b].status.Confirmed? && db.batches[b].items[k].commission == i;
    assert BatchOk(db.checkouts, db.batches[b]);
    assert PaidItemOk(db.checkouts, db.batches[b].items[k]);
  }
}
