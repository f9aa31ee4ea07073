/** Every transaction of the commission engine, the wallet and the withdrawals keeps the core invariants. */
module CoreSteps {
  import opened Prelude
  import opened Contract
  import opened Payment
  import opened Wallets
  import opened Tables
  import opened Engine
  import opened Eligibility
  import opened Settlement
  import opened Withdrawals
  import opened Invariants
  import opened Rows
  import opened Books
  import opened Issues

  /** Publishing and reviewing: rows stay, or grow a revision; new rows were never paid. */
  ghost predicate Bumps(a: seq<Checkout>, b: seq<Checkout>) {
    && |a| <= |b|
    && (forall i :: 0 <= i < |a| ==> b[i] == a[i] || Bumped(a[i], b[i]))
    && (forall i :: |a| <= i < |b| ==> StakeOf(b[i]) == NoStake && !EverPaid(b[i].commission))
  }

  lemma PutBumps(checkouts: seq<Checkout>, at: Option<nat>, row: Checkout)
    requires at.Some? ==> at.value < |checkouts| && Bumped(checkouts[at.value], row)
    requires at.None? ==> StakeOf(row) == NoStake && !EverPaid(row.commission)
    ensures Bumps(checkouts, Put(checkouts, at, row))
  {
  }

  /** A published row that moves no money keeps the core invariants. */
  lemma StoreKeepsCore(env: Env, db: Db, db': Db, at: Option<nat>, row: Checkout, f: Finding)
    requires Core(env, db) && RowOk(env, row)
    requires Slot(db.checkouts, at, row) && Neutral(db.checkouts, at, row)
    requires at.Some? ==> db.checkouts[at.value].sourceHash != row.sourceHash
    requires EverPaid(row.commission) ==> at.Some? && EverPaid(db.checkouts[at.value].commission)
    requires !EverPaid(row.commission) ==> (row.commission.state.ManualReview? <==> f.issues != [])
    requires db'.checkouts == Put(db.checkouts, at, row) && db'.issues == Published(db.issues, row, f.issues)
    requires db'.accounts == db.accounts && db'.withdrawals == db.withdrawals && db'.credential == db.credential
    ensures Core(env, db')
  {
    hide RowOk, LedgerOk, BooksOk, Published;
    PutKeepsUnique(db.checkouts, at, row);
    PutKeepsOnePaid(db.checkouts, at, row);
    PublishKeepsIssues(db.checkouts, db.issues, at, row, f.issues);
    NeutralKeepsBooks(db.checkouts, at, row, db.withdrawals, db.accounts.ledger);
  }

  /** A reversal appends exactly its entry. */
  lemma ReversePosts(env: Env, db: Db, id: nat)
    requires Core(env, db) && id < |db.checkouts| && db.checkouts[id].commission.state.Paid?
    ensures var c := db.checkouts[id].commission;
      && c.user.Some? && c.cashback.Some?
      && Reverse(db.accounts, id, c).Ok?
      && LedgerOk(Reverse(db.accounts, id, c).value)
      && var p := ReversalPosting(id, c); var u := c.user.value;
        Reverse(db.accounts, id, c).value.ledger == db.accounts.ledger +
          [EntryOf(Wallet(u, Available(db.accounts, u), Reserved(db.accounts, u)), p)]
  {
    hide SourceOk, PaymentBlockers, ReviewIffOpen, OpenIssuesCurrent, Post, Running, Sum;
    var c := db.checkouts[id].commission;
    assert RowOk(env, db.checkouts[id]);
    var p := ReversalPosting(id, c);
    KeyUsedIffWritten(db.checkouts, db.withdrawals, db.accounts.ledger, p.key);
    ReservedIsInFlight(db, p.user);
    FreshPost(db.accounts, p);
    PostKeepsLedger(db.accounts, p);
  }

  lemma {:induction false} InFlightNonNegative(ws: seq<Withdrawal>, user: UserId)
    ensures Sum(ws, InFlightOf(Some(user))) >= 0
    ensures forall w :: w in ws && w.user == user && InFlight(w.status) ==> Sum(ws, InFlightOf(Some(user))) >= w.amount
    decreases |ws|
  {
    if |ws| > 0 {
      var n := |ws| - 1;
      InFlightNonNegative(ws[..n], user);
      assert forall w :: w in ws <==> w in ws[..n] || w == ws[n];
    }
  }

  /** The reserve is the work in flight, so it is never negative. */
  lemma ReservedIsInFlight(db: Db, user: UserId)
    requires BooksOk(db.checkouts, db.withdrawals, db.accounts.ledger)
    ensures Reserved(db.accounts, user) == Sum(db.withdrawals, InFlightOf(Some(user))) >= 0
  {
    assert Balanced(db.checkouts, db.withdrawals, db.accounts.ledger, Some(user));
    InFlightNonNegative(db.withdrawals, user);
  }

  /** A reversal keeps the core invariants. */
  lemma ReversalKeepsCore(env: Env, db: Db, db': Db, id: nat, row: Checkout, f: Finding)
    requires Core(env, db) && RowOk(env, row)
    requires id < |db.checkouts| && Slot(db.checkouts, Some(id), row)
    requires db.checkouts[id].commission.state.Paid? && EverPaid(row.commission)
    requires StakeOf(db.checkouts[id]).Stake? && !StakeOf(db.checkouts[id]).reversed
    requires StakeOf(row) == StakeOf(db.checkouts[id]).(reversed := true)
    requires db.checkouts[id].sourceHash != row.sourceHash
    requires db'.checkouts == db.checkouts[id := row] && db'.issues == Published(db.issues, row, f.issues)
    requires Reverse(db.accounts, id, db.checkouts[id].commission) == Ok(db'.accounts)
    requires db'.withdrawals == db.withdrawals && db'.credential == db.credential
    ensures Core(env, db')
  {
    hide RowOk, LedgerOk, BooksOk, Published, Reverse, OpenIssuesCurrent, ReviewIffOpen, OnePaid, UniqueCheckouts;
    ReversePosts(env, db, id);
    var ledger := db.accounts.ledger;
    var e := db'.accounts.ledger[|ledger|];
    assert EntryOk(db'.checkouts, db.withdrawals, e);
    PutKeepsUnique(db.checkouts, Some(id), row);
    PutKeepsOnePaid(db.checkouts, Some(id), row);
    PublishKeepsIssues(db.checkouts, db.issues, Some(id), row, f.issues);
    ReversalKeepsBooks(db.checkouts, id, row, db.withdrawals, ledger, e);
  }

  lemma TargetAt(env: Env, db: Db, sync: Sync, g: Group, at: Option<nat>)
    requires Core(env, db) && WellFormedAccount(sync.accountId) && g.rows != []
    requires at == RowAt(db, sync, g)
    ensures Target(env, sync, g, if at.Some? then Some(db.checkouts[at.value]) else None)
  {
    hide RowOk, LedgerOk, BooksOk, ReviewIffOpen, OpenIssuesCurrent;
    if at.Some? { assert RowOk(env, db.checkouts[at.value]); }
  }

  lemma PublishUnpaidKeepsCore(env: Env, db: Db, sync: Sync, g: Group, at: Option<nat>, f: Finding)
    requires Core(env, db) && WellFormedAccount(sync.accountId) && g.rows != []
    requires at == RowAt(db, sync, g) && !Unchanged(env, db, sync, g)
    requires Sound(f, db.checkouts, sync, g, if at.Some? then Some(db.checkouts[at.value]) else None)
    requires at.Some? ==> !EverPaid(db.checkouts[at.value].commission)
    ensures Core(env, PublishUnpaid(env, db, sync, g, at, f))
    ensures Bumps(db.checkouts, PublishUnpaid(env, db, sync, g, at, f).checkouts)
  {
    var previous := if at.Some? then Some(db.checkouts[at.value]) else None;
    TargetAt(env, db, sync, g, at);
    hide LedgerOk, BooksOk, ReviewIffOpen, OpenIssuesCurrent, OnePaid, UniqueCheckouts, NewState, CashbackFor;
    hide PaymentBlockers;
    var c := PublishedCommission(env, db.policy, previous, f, g.rows);
    UnpaidRowOk(env, db.policy, db.checkouts, sync, g, previous, f);
    UnpaidCheckoutOk(env, sync, g, previous, f, c, db.checkouts);
    var row := PublishedCheckout(env, sync, g, previous, f, c);
    assert at.Some? ==> StakeOf(db.checkouts[at.value]) == NoStake;
    StoreKeepsCore(env, db, PublishUnpaid(env, db, sync, g, at, f), at, row, f);
    PutBumps(db.checkouts, at, row);
  }

  lemma PublishPaidKeepsCore(env: Env, db: Db, sync: Sync, g: Group, at: nat, f: Finding)
    requires Core(env, db) && WellFormedAccount(sync.accountId) && g.rows != []
    requires Some(at) == RowAt(db, sync, g) && !Unchanged(env, db, sync, g)
    requires Sound(f, db.checkouts, sync, g, Some(db.checkouts[at]))
    requires EverPaid(db.checkouts[at].commission)
    ensures PublishPaid(env, db, sync, g, at, f).Ok?
    ensures Core(env, PublishPaid(env, db, sync, g, at, f).value)
    ensures Bumps(db.checkouts, PublishPaid(env, db, sync, g, at, f).value.checkouts)
  {
    hide LedgerOk, BooksOk, ReviewIffOpen, OpenIssuesCurrent, OnePaid, UniqueCheckouts, RowOk, Reverse;
    var previous := db.checkouts[at];
    TargetAt(env, db, sync, g, Some(at));
    var reverse := MustReverse(previous, f);
    if reverse { ReversePosts(env, db, at); }
    PaidCheckoutOk(env, sync, g, previous, f, reverse, db.checkouts);
    var c := if reverse then ReversedCommission(previous.commission) else previous.commission;
    var row := PublishedCheckout(env, sync, g, Some(previous), f, c);
    var db' := PublishPaid(env, db, sync, g, at, f).value;
    PutBumps(db.checkouts, Some(at), row);
    if reverse {
      ReversalKeepsCore(env, db, db', at, row, f);
    } else {
      StoreKeepsCore(env, db, db', Some(at), row, f);
    }
  }

  /** Publishing one group always succeeds on a good database, and keeps it good. */
  lemma PublishOneKeepsCore(env: Env, db: Db, sync: Sync, g: Group)
    requires Core(env, db) && db.credential.Some? && WellFormedAccount(sync.accountId) && g.rows != []
    ensures PublishOne(env, db, sync, g).Ok?
    ensures Core(env, PublishOne(env, db, sync, g).value)
    ensures Bumps(db.checkouts, PublishOne(env, db, sync, g).value.checkouts)
  {
    hide Core, FindingOf, PublishUnpaid, PublishPaid, Sound, Bumped, StakeOf;
    var at := RowAt(db, sync, g);
    var previous := if at.Some? then Some(db.checkouts[at.value]) else None;
    if !Unchanged(env, db, sync, g) {
      var f := FindingOf(env, db, sync, g, previous);
      FindingIsSound(env, db, sync, g, previous);
      if at.Some? && EverPaid(db.checkouts[at.value].commission) {
        PublishPaidKeepsCore(env, db, sync, g, at.value, f);
      } else {
        PublishUnpaidKeepsCore(env, db, sync, g, at, f);
      }
    }
  }

  /** Reviewing an issue keeps the core invariants. */
  lemma ReviewKeepsCore(env: Env, db: Db, issueId: nat, input: Review)
    requires Core(env, db) && ReviewIssue(env, db, issueId, input).Ok?
    ensures Core(env, ReviewIssue(env, db, issueId, input).value)
    ensures Bumps(db.checkouts, ReviewIssue(env, db, issueId, input).value.checkouts)
  {
    hide LedgerOk, BooksOk, ReviewIffOpen, OpenIssuesCurrent, OnePaid, UniqueCheckouts, RowOk, ApprovedCommission;
    hide Excluded;
    var db' := ReviewIssue(env, db, issueId, input).value;
    var issue := db.issues[issueId];
    var i := FindCheckout(db.checkouts, issue.provider, issue.checkoutId).value;
    var checkout := db.checkouts[i];
    assert RowOk(env, checkout);
    ReviewedRowOk(env, db, checkout, input);
    var row := db'.checkouts[i];
    assert StakeOf(checkout) == NoStake;
    PutKeepsUnique(db.checkouts, Some(i), row);
    PutKeepsOnePaid(db.checkouts, Some(i), row);
    ReviewKeepsIssues(db.checkouts, db.issues, i, row);
    NeutralKeepsBooks(db.checkouts, Some(i), row, db.withdrawals, db.accounts.ledger);
    PutBumps(db.checkouts, Some(i), row);
  }

  /** A credit appends exactly its entry. */
  lemma CreditPosts(env: Env, db: Db, id: nat, amount: nat)
    requires Core(env, db) && id < |db.checkouts|
    requires db.checkouts[id].commission.state.Validated? && db.checkouts[id].commission.user.Some?
    ensures var u := db.checkouts[id].commission.user.value; var p := CreditPosting(id, u, amount);
      && Post(db.accounts, p).Ok?
      && LedgerOk(Post(db.accounts, p).value)
      && Post(db.accounts, p).value.ledger == db.accounts.ledger +
           [EntryOf(Wallet(u, Available(db.accounts, u), Reserved(db.accounts, u)), p)]
  {
    hide RowOk, ReviewIffOpen, OpenIssuesCurrent, Post, LedgerOk, Sum;
    var p := CreditPosting(id, db.checkouts[id].commission.user.value, amount);
    KeyUsedIffWritten(db.checkouts, db.withdrawals, db.accounts.ledger, p.key);
    ReservedIsInFlight(db, p.user);
    FreshPost(db.accounts, p);
    PostKeepsLedger(db.accounts, p);
  }

  /** When one iteration of a confirmation goes through. */
  ghost predicate Payable(env: Env, db: Db, item: SettlementItem) {
    && item.commission < |db.checkouts|
    && ProviderBlockers(env, db, db.checkouts[item.commission]) == []
    && Fresh(db.checkouts, item)
    && db.checkouts[item.commission].commission.state.Validated?
    && db.checkouts[item.commission].commission.rawAmount == item.rawSnapshot
    && item.netVnd >= 0
  }

  /** The row an iteration of a confirmation leaves behind. */
  function PaidRow(checkouts: seq<Checkout>, item: SettlementItem): Checkout
    requires item.commission < |checkouts| && item.netVnd >= 0
    requires checkouts[item.commission].commission.cashback.Some?
  {
    var row := checkouts[item.commission];
    row.(commission := PaidCommission(row.commission, item.netVnd))
  }

  /** On a good database an item is paid exactly when it is payable: no wallet error can get in the way. */
  lemma ConfirmItemExact(env: Env, db: Db, item: SettlementItem)
    requires Core(env, db)
    ensures ConfirmItem(env, db, item).Ok? <==> Payable(env, db, item)
    ensures ConfirmItem(env, db, item).Ok? ==>
      && item.netVnd >= 0
      && db.checkouts[item.commission].commission.cashback.Some?
      && ConfirmItem(env, db, item).value.checkouts == db.checkouts[item.commission := PaidRow(db.checkouts, item)]
      && ConfirmItem(env, db, item).value == db.(checkouts := ConfirmItem(env, db, item).value.checkouts,
                                                 accounts := ConfirmItem(env, db, item).value.accounts)
  {
    hide SourceOk, LedgerOk, BooksOk, ReviewIffOpen, OpenIssuesCurrent, OnePaid, UniqueCheckouts, ProviderBlockers;
    hide PaymentBlockers, Post;
    if item.commission < |db.checkouts| && item.netVnd >= 0 {
      var row := db.checkouts[item.commission];
      assert RowOk(env, row);
      if row.commission.state.Validated? {
        CreditPosts(env, db, item.commission, PaidCommission(row.commission, item.netVnd).cashback.value.userAmount);
      }
    }
  }

  /** The blockers of the provider, one by one. */
  lemma NoProviderBlockers(env: Env, db: Db, c: Checkout)
    ensures ProviderBlockers(env, db, c) == [] <==>
      && IsAddLiveTag(c.provider)
      && PaymentBlockers(env, c.payload) == []
      && !Unverified(db.credential, c.accountId)
      && !HasOpenIssue(db.issues, c.provider, c.checkoutId)
      && !ClaimedElsewhere(db.checkouts, c.provider, c.checkoutId)
  {
    hide PaymentBlockers, HasOpenIssue, ClaimedElsewhere, IsAddLiveTag;
  }

  /** Paying an item keeps the core invariants. */
  lemma ConfirmItemKeepsCore(env: Env, db: Db, item: SettlementItem)
    requires Core(env, db) && ConfirmItem(env, db, item).Ok?
    ensures Core(env, ConfirmItem(env, db, item).value)
    ensures PaidFrom(db.checkouts[item.commission], ConfirmItem(env, db, item).value.checkouts[item.commission])
  {
    hide RowOk, LedgerOk, BooksOk, ReviewIffOpen, OpenIssuesCurrent, OnePaid, UniqueCheckouts, ProviderBlockers;
    hide ConfirmItem, ClaimedElsewhere, Post;
    ConfirmItemExact(env, db, item);
    var db' := ConfirmItem(env, db, item).value;
    var id, row := item.commission, db.checkouts[item.commission];
    assert RowOk(env, row);
    PaidRowOk(env, row, item.netVnd);
    var paid := PaidRow(db.checkouts, item);
    CreditPosts(env, db, id, paid.commission.cashback.value.userAmount);
    PayAccounts(env, db, item);
    NoProviderBlockers(env, db, row);
    PayKeepsOnePaid(db.checkouts, id, paid);
    PutKeepsUnique(db.checkouts, Some(id), paid);
    PayKeepsIssues(db.checkouts, db.issues, id, paid);
    var e := db'.accounts.ledger[|db.accounts.ledger|];
    assert EntryOk(db'.checkouts, db.withdrawals, e);
    CreditKeepsBooks(db.checkouts, id, paid, db.withdrawals, db.accounts.ledger, e);
  }

  lemma PayAccounts(env: Env, db: Db, item: SettlementItem)
    requires ConfirmItem(env, db, item).Ok?
    ensures var c := db.checkouts[item.commission].commission;
      && c.user.Some? && c.cashback.Some? && item.netVnd >= 0
      && Post(db.accounts, CreditPosting(item.commission, c.user.value,
           PaidCommission(c, item.netVnd).cashback.value.userAmount)) == Ok(ConfirmItem(env, db, item).value.accounts)
  {
    hide ProviderBlockers, Post;
  }

  // ---------- Withdrawals and adjustments ----------

  /** Requesting a withdrawal keeps the core invariants. */
  lemma CreateWithdrawalKeepsCore(env: Env, db: Db, input: WithdrawalRequest)
    requires Core(env, db) && CreateWithdrawal(env, db, input).Ok?
    ensures Core(env, CreateWithdrawal(env, db, input).value)
  {
    hide RowsOk, LedgerOk, ReviewIffOpen, OpenIssuesCurrent, OnePaid, UniqueCheckouts, Post, Sum, Running;
    var db' := CreateWithdrawal(env, db, input).value;
    if FindWithdrawal(db.withdrawals, input.user, input.key).None? {
      var id := |db.withdrawals|;
      var p := ReservePosting(id, input.user, input.amount);
      KeyUsedIffWritten(db.checkouts, db.withdrawals, db.accounts.ledger, p.key);
      FreshPost(db.accounts, p);
      PostKeepsLedger(db.accounts, p);
      var w := Withdrawal(input.user, input.key, input.bankId, input.amount, WithdrawalStatus.Pending);
      var e := db'.accounts.ledger[|db.accounts.ledger|];
      assert EntryOk(db.checkouts, db.withdrawals + [w], e);
      ReserveKeepsBooks(db.checkouts, db.withdrawals, w, db.accounts.ledger, e);
    }
  }

  /** An allowed finalisation is never refused by the wallet. */
  lemma FinalizePosts(env: Env, db: Db, id: nat, to: WithdrawalStatus)
    requires Core(env, db) && id < |db.withdrawals| && InFlight(db.withdrawals[id].status) && Terminal(to)
    ensures var w := db.withdrawals[id]; var p := FinalizePosting(id, w, to);
      && Post(db.accounts, p).Ok?
      && LedgerOk(Post(db.accounts, p).value)
      && Post(db.accounts, p).value.ledger == db.accounts.ledger +
           [EntryOf(Wallet(w.user, Available(db.accounts, w.user), Reserved(db.accounts, w.user)), p)]
  {
    hide RowsOk, LedgerOk, ReviewIffOpen, OpenIssuesCurrent, OnePaid, UniqueCheckouts, Post, Sum;
    var w := db.withdrawals[id];
    var p := FinalizePosting(id, w, to);
    KeyUsedIffWritten(db.checkouts, db.withdrawals, db.accounts.ledger, p.key);
    ReservedIsInFlight(db, w.user);
    assert w in db.withdrawals;
    InFlightNonNegative(db.withdrawals, w.user);
    FreshPost(db.accounts, p);
    PostKeepsLedger(db.accounts, p);
  }

  /** A transition keeps the core invariants. */
  lemma TransitionKeepsCore(env: Env, db: Db, id: nat, to: WithdrawalStatus)
    requires Core(env, db) && Transition(db, id, to).Ok?
    ensures Core(env, Transition(db, id, to).value)
  {
    hide RowsOk, LedgerOk, BooksOk, ReviewIffOpen, OpenIssuesCurrent, OnePaid, UniqueCheckouts, Post, InDebt;
    var db' := Transition(db, id, to).value;
    var w := db.withdrawals[id];
    if w.status != to {
      if to.Processing? {
        ProcessingKeepsBooks(db.checkouts, db.withdrawals, id, db.accounts.ledger);
      } else {
        FinalizePosts(env, db, id, to);
        var e := db'.accounts.ledger[|db.accounts.ledger|];
        assert EntryOk(db.checkouts, db'.withdrawals, e);
        FinalizeKeepsBooks(db.checkouts, db.withdrawals, id, to, db.accounts.ledger, e);
      }
    }
  }

  /** An adjustment keeps the core invariants. */
  lemma AdjustKeepsCore(env: Env, db: Db, user: UserId, key: string, amount: int)
    requires Core(env, db) && Adjust(db, user, key, amount).Ok?
    ensures Core(env, Adjust(db, user, key, amount).value)
  {
    hide RowsOk, BooksOk, ReviewIffOpen, OpenIssuesCurrent, OnePaid, UniqueCheckouts, LedgerOk, Sum;
    var p := AdjustmentPosting(user, key, amount);
    PostKeepsLedger(db.accounts, p);
    if !HasKey(db.accounts.ledger, p.key) {
      FreshPost(db.accounts, p);
      var e := Adjust(db, user, key, amount).value.accounts.ledger[|db.accounts.ledger|];
      AdjustmentKeepsBooks(db.checkouts, db.withdrawals, db.accounts.ledger, e);
    } else {
      KnownPost(db.accounts, p);
    }
  }

  lemma KnownPost(acc: Accounts, p: Posting)
    requires HasKey(acc.ledger, p.key) && Post(acc, p).Ok?
    ensures Post(acc, p) == Ok(acc)
  {
  }
}
