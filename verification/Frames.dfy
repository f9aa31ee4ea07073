/** What each service call leaves as it is, and which money publishing moves. */
module Frames {
  import opened Prelude
  import opened Digests
  import opened Payment
  import opened Wallets
  import opened Tables
  import opened Engine
  import opened Settlement
  import opened Withdrawals
  import opened Invariants
  import Books
  import opened CoreSteps
  import opened Runs
  import opened PublishTheorems
  import opened Effects

  /** Publishing leaves batches, withdrawals, links and the credential alone, and may store the default policy. */
  predicate Published(a: Db, b: Db) {
    && b == a.(checkouts := b.checkouts, issues := b.issues, accounts := b.accounts, policy := b.policy)
    && (b.policy == a.policy || (a.policy.None? && b.policy == Some(Policy(8000, 10000))))
  }

  lemma PublishOneTouches(env: Env, db: Db, sync: Sync, g: Group)
    requires db.credential.Some? && PublishOne(env, db, sync, g).Ok?
    ensures Published(db, PublishOne(env, db, sync, g).value)
  {
    hide FindingOf, PublishedCommission, ReversedCommission, DigestOf, Close, Raise, Reverse;
  }

  lemma {:induction false} PublishAllTouches(env: Env, db: Db, sync: Sync, groups: seq<Group>)
    requires db.credential.Some? && PublishAll(env, db, sync, groups).Ok?
    ensures Published(db, PublishAll(env, db, sync, groups).value)
    decreases |groups|
  {
    hide PublishOne;
    if groups != [] {
      PublishOneTouches(env, db, sync, groups[0]);
      PublishAllTouches(env, PublishOne(env, db, sync, groups[0]).value, sync, groups[1..]);
    }
  }

  lemma ConfirmItemTouches(env: Env, db: Db, item: SettlementItem)
    requires ConfirmItem(env, db, item).Ok?
    ensures var b := ConfirmItem(env, db, item).value; b == db.(checkouts := b.checkouts, accounts := b.accounts)
  {
    hide Post, PaidCommission;
  }

  lemma {:induction false} ConfirmItemsTouch(env: Env, db: Db, items: seq<SettlementItem>)
    requires ConfirmItems(env, db, items).Ok?
    ensures var b := ConfirmItems(env, db, items).value; b == db.(checkouts := b.checkouts, accounts := b.accounts)
    decreases |items|
  {
    hide ConfirmItem;
    if items != [] {
      ConfirmItemTouches(env, db, items[0]);
      ConfirmItemsTouch(env, ConfirmItem(env, db, items[0]).value, items[1..]);
    }
  }

  lemma ConfirmTouches(env: Env, db: Db, id: nat)
    requires Confirm(env, db, id).Ok?
    ensures var b := Confirm(env, db, id).value;
      b == db.(checkouts := b.checkouts, batches := b.batches, accounts := b.accounts)
  {
    hide ConfirmItems, Sum;
    if db.batches[id].status.Draft? { ConfirmItemsTouch(env, db, db.batches[id].items); }
  }

  /** The policy a change of settings stores. */
  function NewPolicy(policy: Option<Policy>, bps: Bps, min: Option<nat>): Policy {
    Policy(bps, if min.Some? then min.value else if policy.Some? then policy.value.minWithdrawal else 10000)
  }

  /**
   * What each service call leaves as it is: whatever it does not name stays the same row for row. The policy
   * changes only by being set, within 100 to 10000 basis points and keeping the minimum unless one is given,
   * or by being stored with its defaults.
   */
  lemma StepTouches(env: Env, db: Db, e: Event)
    ensures var b := Step(env, db, e);
      match e
      case PublishEvent(_, _) => Published(db, b)
      case ReviewEvent(_, _) => Published(db, b) && b.accounts == db.accounts
      case CreateEvent(_) => b == db.(batches := b.batches)
      case ConfirmEvent(_) => b == db.(checkouts := b.checkouts, batches := b.batches, accounts := b.accounts)
      case CancelEvent(_) => b == db.(batches := b.batches)
      case WithdrawEvent(_) => Published(db.(withdrawals := b.withdrawals), b)
                               && b.checkouts == db.checkouts && b.issues == db.issues
      case TransitionEvent(_, _) => b == db.(withdrawals := b.withdrawals, accounts := b.accounts)
      case AdjustEvent(_, _, _) => b == db.(accounts := b.accounts)
      case PolicyEvent(bps, min) =>
        b == if 100 <= bps <= 10000 then db.(policy := Some(NewPolicy(db.policy, bps, min))) else db
      case CredentialEvent(c) => b == db || b == db.(credential := Some(c))
      case LinksEvent(links) => b == db.(links := links)
  {
    hide Publish, ReviewIssue, Create, Confirm, Settlement.Cancel, CreateWithdrawal, Transition, Adjust;
    if Perform(env, db, e).Ok? {
      match e
      case PublishEvent(sync, groups) => PublishTouches(env, db, sync, groups);
      case ReviewEvent(issue, review) => ReviewTouches(env, db, issue, review);
      case ConfirmEvent(batch) => ConfirmTouches(env, db, batch);
      case CreateEvent(request) => CreateAllocates(env, db, request);
      case CancelEvent(batch) => CancelTouchesBatches(db, batch);
      case WithdrawEvent(request) => WithdrawTouches(env, db, request);
      case TransitionEvent(id, to) => TransitionTouches(db, id, to);
      case AdjustEvent(user, key, amount) => AdjustTouches(db, user, key, amount);
      case _ =>
    }
  }

  lemma PublishTouches(env: Env, db: Db, sync: Sync, groups: seq<Group>)
    requires Publish(env, db, sync, groups).Ok?
    ensures Published(db, Publish(env, db, sync, groups).value)
  {
    hide PublishAll;
    PublishAllTouches(env, db, sync, groups);
  }

  lemma ReviewTouches(env: Env, db: Db, issue: nat, review: Review)
    requires ReviewIssue(env, db, issue, review).Ok?
    ensures Published(db, ReviewIssue(env, db, issue, review).value)
    ensures ReviewIssue(env, db, issue, review).value.accounts == db.accounts
  {
    hide ApprovedCommission, Excluded, Close;
  }

  lemma WithdrawTouches(env: Env, db: Db, request: WithdrawalRequest)
    requires CreateWithdrawal(env, db, request).Ok?
    ensures var b := CreateWithdrawal(env, db, request).value;
      && Published(db.(withdrawals := b.withdrawals), b) && b.checkouts == db.checkouts && b.issues == db.issues
  {
    hide Post;
  }

  lemma TransitionTouches(db: Db, id: nat, to: WithdrawalStatus)
    requires Transition(db, id, to).Ok?
    ensures var b := Transition(db, id, to).value; b == db.(withdrawals := b.withdrawals, accounts := b.accounts)
  {
    hide Post, InDebt;
  }

  lemma AdjustTouches(db: Db, user: UserId, key: string, amount: int)
    requires Adjust(db, user, key, amount).Ok?
    ensures var b := Adjust(db, user, key, amount).value; b == db.(accounts := b.accounts)
  {
    hide Post;
  }

  // ---------- The money publishing moves ----------

  /** A paid checkout reported as wholly cancelled, with nothing else wrong. */
  ghost predicate TakesBack(env: Env, db: Db, sync: Sync, g: Group)
    requires db.credential.Some?
  {
    && Before(db, sync, g).Some? && Before(db, sync, g).value.state.Paid?
    && AllOf(g.rows, "cancelled")
    && forall t :: Grounds(env, db, sync, g, t) ==> t.PaidCommissionChanged?
  }

  /** Publishing a checkout takes the credited cashback back from its user, or moves no money at all. */
  lemma PublishMoves(env: Env, db: Db, sync: Sync, g: Group)
    requires Core(env, db) && db.credential.Some? && WellFormedAccount(sync.accountId) && g.rows != []
    requires !Unchanged(env, db, sync, g)
    ensures PublishOne(env, db, sync, g).Ok?
    ensures !TakesBack(env, db, sync, g) ==> PublishOne(env, db, sync, g).value.accounts == db.accounts
    ensures TakesBack(env, db, sync, g) ==>
      var c := Before(db, sync, g).value;
      && c.user.Some? && c.cashback.Some?
      && Effects.Moves(db.accounts, PublishOne(env, db, sync, g).value.accounts, c.user.value,
                       0 - c.cashback.value.userAmount, 0)
  {
    hide Core, FindingOf, Grounds, AllOf, RowAt, Unchanged, PublishedCheckout, PublishUnpaid, Reverse, Effects.Moves;
    PublishOneKeepsCore(env, db, sync, g);
    if WasPaid(db, sync, g) {
      ReversalExact(env, db, sync, g);
      PaidAccounts(env, db, sync, g);
      if TakesBack(env, db, sync, g) { ReversalMoves(env, db, RowAt(db, sync, g).value); }
    } else {
      UnpaidAccounts(env, db, sync, g);
    }
  }

  lemma UnpaidAccounts(env: Env, db: Db, sync: Sync, g: Group)
    requires db.credential.Some? && !Unchanged(env, db, sync, g) && !WasPaid(db, sync, g)
    ensures PublishOne(env, db, sync, g).Ok? && PublishOne(env, db, sync, g).value.accounts == db.accounts
  {
    hide FindingOf, PublishedCommission, DigestOf, Close, Raise, PublishPaid;
  }

  lemma PaidAccounts(env: Env, db: Db, sync: Sync, g: Group)
    requires db.credential.Some? && !Unchanged(env, db, sync, g) && WasPaid(db, sync, g)
    requires PublishOne(env, db, sync, g).Ok?
    ensures var at := RowAt(db, sync, g).value; var previous := db.checkouts[at];
      if MustReverse(previous, FindingOf(env, db, sync, g, Some(previous)))
      then Reverse(db.accounts, at, previous.commission) == Ok(PublishOne(env, db, sync, g).value.accounts)
      else PublishOne(env, db, sync, g).value.accounts == db.accounts
  {
    hide FindingOf, ReversedCommission, DigestOf, Close, Raise, PublishUnpaid, Reverse, MustReverse;
  }

  lemma ReversalMoves(env: Env, db: Db, id: nat)
    requires Core(env, db) && id < |db.checkouts| && db.checkouts[id].commission.state.Paid?
    ensures var c := db.checkouts[id].commission;
      && c.user.Some? && c.cashback.Some? && Reverse(db.accounts, id, c).Ok?
      && Effects.Moves(db.accounts, Reverse(db.accounts, id, c).value, c.user.value, 0 - c.cashback.value.userAmount, 0)
  {
    hide Core, LedgerOk, HasKey, Post, Effects.Moves, Available, Reserved;
    ReversePosts(env, db, id);
    FreshReversal(env, db, id);
    PostMoves(db.accounts, ReversalPosting(id, db.checkouts[id].commission));
  }

  lemma FreshReversal(env: Env, db: Db, id: nat)
    requires Core(env, db) && id < |db.checkouts| && db.checkouts[id].commission.state.Paid?
    ensures LedgerOk(db.accounts) && !HasKey(db.accounts.ledger, ReversalKey(id))
  {
    hide RowsOk, LedgerOk, ReviewIffOpen, OpenIssuesCurrent, OnePaid, UniqueCheckouts, Balanced, Solvent;
    Books.KeyUsedIffWritten(db.checkouts, db.withdrawals, db.accounts.ledger, ReversalKey(id));
  }
}
