/**
 * The services as they run: a store whose methods change the tables step by step inside a transaction.
 * Every method is proved to do what its transaction is specified to do, and to keep all invariants.
 */
module Services {
  import opened Prelude
  import opened Contract
  import opened Digests
  import opened Money
  import opened Payment
  import opened Inspection
  import opened Attribution
  import opened Wallets
  import opened Tables
  import opened Engine
  import opened Eligibility
  import opened Settlement
  import opened Withdrawals
  import opened Invariants
  import opened Runs

  /** A step inside a transaction did what is specified, or failed as specified. */
  predicate Follows<T(==)>(r: Result<T>, failure: Option<Error>, now: T) {
    if r.Ok? then failure == None && now == r.value else failure == Some(r.error)
  }

  /** A transaction committed what is specified, or rolled back with the specified error. */
  predicate Transacted(before: Db, r: Result<Db>, failure: Option<Error>, now: Db) {
    Follows(r, failure, now) && (failure.Some? ==> now == before)
  }

  lemma CommitKeepsInv(env: Env, db: Db, e: Event)
    requires Inv(env, db) && Perform(env, db, e).Ok?
    ensures Inv(env, Perform(env, db, e).value)
  {
    hide Inv, Perform, Moves;
    StepKeepsInv(env, db, e);
  }

  class FinanceStore {
    const env: Env
    var checkouts: seq<Checkout>
    var issues: seq<Issue>
    var batches: seq<SettlementBatch>
    var withdrawals: seq<Withdrawal>
    var wallets: seq<Wallet>
    var ledger: seq<Entry>
    var credential: Option<Credential>
    var links: seq<Link>
    var policy: Option<Policy>

    function State(): Db
      reads this
    {
      Db(checkouts, issues, batches, withdrawals, Accounts(wallets, ledger), credential, links, policy)
    }

    ghost predicate Valid()
      reads this
    {
      Inv(env, State())
    }

    constructor (env: Env)
      ensures this.env == env
      ensures State() == EMPTY && Valid()
    {
      this.env := env;
      checkouts, issues, batches, withdrawals := [], [], [], [];
      wallets, ledger, links := [], [], [];
      credential, policy := None, None;
      new;
      EmptyOk(env);
    }

    /** Roll back. */
    method Restore(saved: Db)
      modifies this
      ensures State() == saved
    {
      checkouts, issues, batches, withdrawals := saved.checkouts, saved.issues, saved.batches, saved.withdrawals;
      wallets, ledger := saved.accounts.wallets, saved.accounts.ledger;
      credential, links, policy := saved.credential, saved.links, saved.policy;
    }

    // ---------- Wallets ----------

    /** `WalletService.post`. */
    method Post(p: Posting) returns (failure: Option<Error>)
      modifies `wallets, `ledger
      ensures Follows(Wallets.Post(Accounts(old(wallets), old(ledger)), p), failure, Accounts(wallets, ledger))
    {
      var existing := FindEntry(ledger, p.key);
      if existing.Some? {
        if !SamePosting(ledger[existing.value], p) { return Some(IdempotencyKeyReused); }
        return None;
      }
      wallets := EnsureWallet(wallets, p.user);
      var i := FindWallet(wallets, p.user).value;
      var wallet := wallets[i];
      if p.requireFunds.Some? && wallet.available < p.requireFunds.value { return Some(InsufficientAvailableBalance); }
      if wallet.reserved + p.reserved < 0 { return Some(InvalidReservedBalance); }
      var updated := Wallet(wallet.user, wallet.available + p.available, wallet.reserved + p.reserved);
      wallets := wallets[i := updated];
      ledger := ledger +
        [Entry(p.user, p.key, p.kind, p.available, p.reserved, updated.available, updated.reserved, p.reference)];
      return None;
    }

    // ---------- The commission engine ----------

    /** What the snapshot of one checkout says. */
    method Examine(sync: Sync, g: Group, previous: Option<Checkout>) returns (f: Finding)
      requires credential.Some?
      ensures f == FindingOf(env, State(), sync, g, previous)
    {
      var inspected := InspectCheckout(env, g.rows);
      var kinds := inspected.issues;
      kinds := AddIf(kinds, !credential.value.verified, AccountUnitUnverified);
      kinds := AddIf(kinds, ForeignAffiliate(g.rows, sync.expectedAffiliate), AffiliateAccountMismatch);
      var known := KnownElsewhere(checkouts, ProviderScope(sync.accountId), g.checkoutId);
      kinds := AddIf(kinds, known, CrossProviderDuplicate);
      var link := Attribute(links, g.rows);
      var user: Option<UserId>, linkId: Option<string> := None, None;
      if link.Some? { user, linkId := Some(link.value.userId), Some(link.value.id); }
      kinds := AddIf(kinds, link.None?, IssueType.InvalidAttribution);
      var changed := previous.Some? && previous.value.commission.user.Some? && user != previous.value.commission.user;
      kinds := AddIf(kinds, changed, AttributionChanged);
      if changed { user, linkId := previous.value.commission.user, previous.value.commission.link; }
      kinds := AddIf(kinds, previous.Some? && EverPaid(previous.value.commission), PaidCommissionChanged);
      f := Finding(inspected.conversion, inspected.amount, Owner(user, linkId, changed), kinds);
    }

    /** The cashback upsert, with the policy upsert it starts with. */
    method UpsertCashback(existing: Option<Cashback>, amount: nat, state: CommissionState) returns (cashback: Cashback)
      modifies `policy
      ensures cashback == CashbackFor(existing, old(policy), amount, state)
      ensures cashback.userBps ==
        if existing.Some? then existing.value.userBps
        else if old(policy).Some? then old(policy).value.userBps else 8000
      ensures cashback.userAmount == amount * cashback.userBps / 10000
      ensures cashback.platformAmount == amount - cashback.userAmount
      ensures policy == Some(PolicyOr(old(policy)))
    {
      policy := Some(PolicyOr(policy));
      var userBps := if existing.Some? then existing.value.userBps else policy.value.userBps;
      var split := SplitCashback(amount, userBps).value;
      cashback := Cashback(userBps, split.user, split.platform, CashbackStateFor(state));
    }

    /** Open the issues that are not open yet. */
    method RaiseIssues(provider: string, checkoutId: string, kinds: seq<IssueType>, hash: Digest)
      modifies `issues
      ensures issues == Raise(old(issues), provider, checkoutId, kinds, hash)
    {
      for k := 0 to |kinds|
        invariant issues == Raise(old(issues), provider, checkoutId, kinds[..k], hash)
      {
        assert kinds[..k + 1][..k] == kinds[..k];
        var issue := Issue(provider, checkoutId, kinds[k], hash, true);
        if issue !in issues { issues := issues + [issue]; }
      }
      assert kinds[..|kinds|] == kinds;
    }

    /** One iteration of `publish`. */
    method PublishGroup(sync: Sync, g: Group) returns (failure: Option<Error>)
      requires credential.Some?
      modifies this
      ensures Follows(PublishOne(env, old(State()), sync, g), failure, State())
      ensures failure == None ==> credential == old(credential)
    {
      hide Wallets.Post, FindingOf, NewState, CashbackFor, DigestOf, Close, Raise, MustReverse, ReversalPosting;
      var provider, hash := ProviderScope(sync.accountId), DigestOf(env.json, g.rows);
      var at := FindCheckout(checkouts, provider, g.checkoutId);
      if at.Some? && checkouts[at.value].sourceHash == hash { return None; }
      var previous := if at.Some? then Some(checkouts[at.value]) else None;
      var f := Examine(sync, g, previous);
      issues := Close(issues, provider, g.checkoutId, Some(hash));
      var commission: Commission;
      if previous.None? || !EverPaid(previous.value.commission) {
        var state := NewState(env, f, g.rows);
        var cashback := PreviousCashback(previous);
        if f.owner.user.Some? {
          var allocation := UpsertCashback(cashback, f.amount, state);
          cashback := Some(allocation);
        }
        commission := Commission(f.owner.user, f.owner.link, state, f.amount, f.amount,
          if previous.Some? then previous.value.commission.settledVnd else 0, cashback);
      } else {
        commission := previous.value.commission;
        if MustReverse(previous.value, f) {
          if commission.user.Some? && commission.cashback.Some? {
            failure := Post(ReversalPosting(at.value, commission));
            if failure.Some? { return failure; }
          }
          commission := ReversedCommission(commission);
        }
      }
      checkouts := Put(checkouts, at, PublishedCheckout(env, sync, g, previous, f, commission));
      RaiseIssues(provider, g.checkoutId, f.issues, hash);
      return None;
    }

    /** `publish(tx, batch, groups)`. */
    method Publish(sync: Sync, groups: seq<Group>) returns (failure: Option<Error>)
      modifies this
      ensures Follows(Engine.Publish(env, old(State()), sync, groups), failure, State())
    {
      hide PublishOne;
      if credential == None { return Some(NotFound); }
      if credential.value.version != sync.credentialVersion || credential.value.accountId != sync.accountId {
        return Some(CredentialChanged);
      }
      for k := 0 to |groups|
        invariant credential.Some?
        invariant PublishAll(env, old(State()), sync, groups) == PublishAll(env, State(), sync, groups[k..])
      {
        failure := PublishGroup(sync, groups[k]);
        if failure.Some? { return failure; }
      }
      return None;
    }

    /** `review(issueId, input, actor)`. */
    method Review(issueId: nat, input: Engine.Review) returns (failure: Option<Error>)
      modifies this
      ensures Follows(ReviewIssue(env, old(State()), issueId, input), failure, State())
    {
      hide Close, ApprovedCommission, Excluded;
      if issueId >= |issues| || !IsAddLiveTag(issues[issueId].provider) { return Some(IssueNotFound); }
      var issue := issues[issueId];
      var at := FindCheckout(checkouts, issue.provider, issue.checkoutId);
      if at.None? { return Some(NotFound); }
      var checkout := checkouts[at.value];
      if checkout.revision != input.revision || checkout.sourceHash != issue.sourceHash {
        return Some(SourceChangedResyncRequired);
      }
      if !issue.open { return Some(IssueAlreadyResolved); }
      if EverPaid(checkout.commission) { return Some(UseAuditedWalletAdjustment); }
      var commission: Commission;
      if input.action.Exclude? {
        commission := Excluded(checkout.commission);
      } else {
        failure, commission := Approve(checkout, input);
        if failure.Some? { return failure; }
      }
      issues := Close(issues, checkout.provider, checkout.checkoutId, None);
      checkouts := checkouts[at.value := Reviewed(checkout, commission, input.action)];
      return None;
    }

    /** The approval branch of `review`. */
    method Approve(checkout: Checkout, input: Engine.Review) returns (failure: Option<Error>, commission: Commission)
      modifies `policy
      ensures Follows(ApprovedCommission(env, old(State()), checkout, input), failure, commission)
      ensures policy == if failure == None then Some(PolicyOr(old(policy))) else old(policy)
    {
      hide PaymentBlockers, CashbackFor, ClaimedElsewhere, Approvable;
      commission := checkout.commission;
      var rows := checkout.payload;
      if credential == None { return Some(NotFound), commission; }
      if !credential.value.verified || !credential.value.active || credential.value.accountId != checkout.accountId {
        return Some(VerifyAccountAndVndFirst), commission;
      }
      if !checkout.rawStatus.Validated? && !checkout.rawStatus.PartiallyValidated? {
        return Some(ProviderStatusNotEligible), commission;
      }
      if !Approvable(rows, credential.value.expectedAffiliate) {
        return Some(ProviderIdentityOrStatusMismatch), commission;
      }
      if ClaimedElsewhere(checkouts, checkout.provider, checkout.checkoutId) {
        return Some(DuplicateCommissionMustBeExcludedFirst), commission;
      }
      if input.linkId == None || input.acceptedVnd == None { return Some(AttributionAndAmountRequired), commission; }
      var link := FindLinkById(links, input.linkId.value);
      if link == None { return Some(NotFound), commission; }
      if link.value.deleted || (commission.user.Some? && commission.user != Some(link.value.userId)) {
        return Some(AttributionConflict), commission;
      }
      var blockers := FindPaymentBlockers(env, rows);
      var state := if blockers != [] then CommissionState.Estimated else CommissionState.Validated;
      if exists r :: r in rows && CodeOf(r).Completed? && RowState(env, r).Rejected? {
        return Some(Error.ProviderCommissionRejected), commission;
      }
      if exists b :: b in blockers && b != CommissionNot(PaymentState.Pending) {
        return Some(ProviderCommissionNotVerified), commission;
      }
      var amount := input.acceptedVnd.value;
      if amount > checkout.netRaw { return Some(AcceptedAmountExceedsReported), commission; }
      var cashback := UpsertCashback(commission.cashback, amount, state);
      return None, commission.(state := state, user := Some(link.value.userId), link := Some(link.value.id),
                               estimatedVnd := amount, cashback := Some(cashback));
    }

    // ---------- Settlement ----------

    /** `checkProvider(tx, checkout)`. */
    method CheckProvider(checkout: Checkout) returns (failure: Option<Error>)
      ensures var blockers := ProviderBlockers(env, State(), checkout);
        failure == if blockers == [] then None else Some(ProviderBlocked(blockers[0]))
    {
      var blockers := FindProviderBlockers(env, State(), checkout);
      if blockers != [] { return Some(ProviderBlocked(blockers[0])); }
      return None;
    }

    /** The provider checks of `create`, row by row. */
    method CheckProviders(ids: seq<nat>) returns (failure: Option<Error>)
      requires InRange(ids, |checkouts|)
      ensures failure == None <==> ProvidersEligible(env, State(), ids)
      ensures failure.Some? ==> failure == Some(ProviderBlocked(FirstBlocker(env, State(), ids)))
    {
      hide ProviderBlockers;
      for k := 0 to |ids|
        invariant forall j :: 0 <= j < k ==> ProviderBlockers(env, State(), checkouts[ids[j]]) == []
        invariant InRange(ids[k..], |checkouts|)
        invariant !ProvidersEligible(env, State(), ids) ==>
          !ProvidersEligible(env, State(), ids[k..])
          && FirstBlocker(env, State(), ids) == FirstBlocker(env, State(), ids[k..])
      {
        failure := CheckProvider(checkouts[ids[k]]);
        if failure.Some? { return failure; }
      }
      return None;
    }

    /** `create(input, actor)`. */
    method CreateSettlement(input: Request) returns (failure: Option<Error>)
      modifies this
      ensures Follows(Create(env, old(State()), input), failure, State())
    {
      hide WellFormed, RowsEligible, ProvidersEligible, FirstBlocker, AllocateNet, Total;
      if !WellFormed(input) { return Some(InvalidInput); }
      if input.grossVnd - input.deductionVnd != input.netVnd || input.grossVnd <= 0 {
        return Some(SettlementTotalsMismatch);
      }
      if !RowsEligible(State(), input.ids) { return Some(CommissionsNotEligible); }
      EligibleInRange(State(), input.ids);
      failure := CheckProviders(input.ids);
      if failure.Some? { return failure; }
      var weights := Weights(checkouts, input.ids);
      var expected := AddUp(weights);
      if input.grossVnd != expected { return Some(GrossDiffersFromValidatedCommission); }
      var amounts := Allocate(input.netVnd, weights);
      if amounts.Err? { return Some(amounts.error); }
      if exists b :: b in batches && b.reference == input.reference { return Some(ReferenceTaken); }
      batches := batches + [SettlementBatch(input.reference, input.grossVnd, input.deductionVnd, input.netVnd, Draft,
                                            Items(checkouts, input.ids, amounts.value))];
      return None;
    }

    /** One iteration of `confirm`. */
    method ConfirmOne(item: SettlementItem) returns (failure: Option<Error>)
      modifies `checkouts, `wallets, `ledger
      ensures Follows(ConfirmItem(env, old(State()), item), failure, State())
    {
      hide ProviderBlockers, Wallets.Post;
      if item.commission >= |checkouts| { return Some(NotFound); }
      var row := checkouts[item.commission];
      var c := row.commission;
      failure := CheckProvider(row);
      if failure.Some? { return failure; }
      if row.revision != item.revisionSnapshot { return Some(CommissionRevisionChanged); }
      if !c.state.Validated? || c.user.None? || c.cashback.None? || c.rawAmount != item.rawSnapshot {
        return Some(CommissionChangedResyncRequired);
      }
      var split := SplitCashback(item.netVnd, c.cashback.value.userBps);
      if split.Err? { return Some(split.error); }
      c := c.(state := CommissionState.Paid, settledVnd := item.netVnd);
      c := c.(cashback := Some(c.cashback.value.(state := CashbackAvailable, userAmount := split.value.user,
                                                  platformAmount := split.value.platform)));
      checkouts := checkouts[item.commission := row.(commission := c)];
      failure := Post(CreditPosting(item.commission, c.user.value, split.value.user));
    }

    /** `confirm(id, actor)`. */
    method ConfirmSettlement(id: nat) returns (failure: Option<Error>)
      modifies this
      ensures Follows(Confirm(env, old(State()), id), failure, State())
    {
      hide ConfirmItems;
      if !env.settlementEnabled { return Some(SettlementDisabled); }
      if id >= |batches| { return Some(SettlementNotFound); }
      var batch := batches[id];
      if batch.status.Confirmed? { return None; }
      if !batch.status.Draft? { return Some(SettlementNotDraft); }
      var net := 0;
      for k := 0 to |batch.items|
        invariant net == Sum(batch.items[..k], NetOf())
        invariant State() == old(State())
      {
        assert batch.items[..k + 1] == batch.items[..k] + [batch.items[k]];
        SumAppend(batch.items[..k], batch.items[k], NetOf());
        net := net + batch.items[k].netVnd;
      }
      assert batch.items[..|batch.items|] == batch.items;
      if net != batch.netVnd { return Some(SettlementUnbalanced); }
      failure := ConfirmAll(batch.items);
      if failure.Some? { return failure; }
      batches := batches[id := batch.(status := Confirmed)];
      return None;
    }

    method ConfirmAll(items: seq<SettlementItem>) returns (failure: Option<Error>)
      modifies `checkouts, `wallets, `ledger
      ensures Follows(ConfirmItems(env, old(State()), items), failure, State())
    {
      hide ConfirmItem;
      for k := 0 to |items|
        invariant ConfirmItems(env, old(State()), items) == ConfirmItems(env, State(), items[k..])
      {
        failure := ConfirmOne(items[k]);
        if failure.Some? { return failure; }
      }
      return None;
    }

    /** `cancel(id, actor, reason)`. */
    method CancelSettlement(id: nat) returns (failure: Option<Error>)
      modifies this
      ensures Follows(Settlement.Cancel(old(State()), id), failure, State())
    {
      if id >= |batches| { return Some(SettlementNotFound); }
      if batches[id].status.Cancelled? { return None; }
      if !batches[id].status.Draft? { return Some(ConfirmedSettlementIsImmutable); }
      batches := batches[id := batches[id].(items := [])];
      batches := batches[id := batches[id].(status := BatchStatus.Cancelled)];
      return None;
    }

    // ---------- Withdrawals ----------

    /** `create(userId, input)`. */
    method RequestWithdrawal(input: WithdrawalRequest) returns (failure: Option<Error>)
      modifies this
      ensures Follows(CreateWithdrawal(env, old(State()), input), failure, State())
    {
      hide Wallets.Post;
      if !env.withdrawalsEnabled { return Some(WithdrawalsDisabled); }
      var known := FindWithdrawal(withdrawals, input.user, input.key);
      if known.Some? {
        var w := withdrawals[known.value];
        if w.amount != input.amount || w.bankId != input.bankId { return Some(IdempotencyKeyReused); }
        return None;
      }
      policy := Some(PolicyOr(policy));
      if input.amount < policy.value.minWithdrawal { return Some(MinimumWithdrawalNotMet); }
      if !input.bankApproved { return Some(ApprovedBankRequired); }
      var id := |withdrawals|;
      withdrawals := withdrawals +
        [Withdrawal(input.user, input.key, input.bankId, input.amount, WithdrawalStatus.Pending)];
      failure := Post(ReservePosting(id, input.user, input.amount));
    }

    /** `transition(id, actor, input)`. */
    method TransitionWithdrawal(id: nat, to: WithdrawalStatus) returns (failure: Option<Error>)
      modifies this
      ensures Follows(Transition(old(State()), id, to), failure, State())
    {
      hide Wallets.Post, FinalizePosting;
      if id >= |withdrawals| { return Some(WithdrawalNotFound); }
      var row := withdrawals[id];
      if row.status == to { return None; }
      if !Allowed(row.status, to) { return Some(InvalidWithdrawalTransition); }
      if to.Processing? {
        var wallet := FindWallet(wallets, row.user);
        if wallet.None? || wallets[wallet.value].available < 0 { return Some(WalletHasClawbackDebt); }
      } else {
        failure := Post(FinalizePosting(id, row, to));
        if failure.Some? { return failure; }
      }
      withdrawals := withdrawals[id := row.(status := to)];
      return None;
    }

    /** `adjust(actor, input)`. */
    method AdjustWallet(user: UserId, key: string, amount: int) returns (failure: Option<Error>)
      modifies this
      ensures Follows(Adjust(old(State()), user, key, amount), failure, State())
    {
      hide Wallets.Post;
      if amount == 0 { return Some(InvalidInput); }
      failure := Post(AdjustmentPosting(user, key, amount));
    }

    // ---------- Settings ----------

    /** `updatePolicy(body, actor)`. */
    method UpdatePolicy(userBps: nat, minWithdrawal: Option<nat>) returns (failure: Option<Error>)
      modifies this
      ensures Follows(Runs.UpdatePolicy(old(State()), userBps, minWithdrawal), failure, State())
    {
      if !(100 <= userBps <= 10000) { return Some(InvalidInput); }
      var stored := PolicyOr(policy).(userBps := userBps);
      if minWithdrawal.Some? { stored := stored.(minWithdrawal := minWithdrawal.value); }
      policy := Some(stored);
      return None;
    }

    // ---------- Transactions ----------

    /** `repo.transaction`: run one service call and roll back if it throws. */
    method Transaction(e: Event) returns (failure: Option<Error>)
      requires Valid()
      modifies this
      ensures Transacted(old(State()), Perform(env, old(State()), e), failure, State())
      ensures Valid()
    {
      var saved := State();
      hide Inv, Engine.Publish, ReviewIssue, Create, Confirm, Settlement.Cancel, CreateWithdrawal, Transition, Adjust;
      hide Runs.UpdatePolicy;
      failure := None;
      match e {
        case PublishEvent(sync, groups) =>
          if GroupsFilled(groups) { failure := Publish(sync, groups); } else { failure := Some(InvalidInput); }
        case ReviewEvent(issue, review) => failure := Review(issue, review);
        case CreateEvent(request) => failure := CreateSettlement(request);
        case ConfirmEvent(batch) => failure := ConfirmSettlement(batch);
        case CancelEvent(batch) => failure := CancelSettlement(batch);
        case WithdrawEvent(withdrawal) => failure := RequestWithdrawal(withdrawal);
        case TransitionEvent(id, to) => failure := TransitionWithdrawal(id, to);
        case AdjustEvent(user, key, amount) => failure := AdjustWallet(user, key, amount);
        case PolicyEvent(userBps, minWithdrawal) => failure := UpdatePolicy(userBps, minWithdrawal);
        case CredentialEvent(c) =>
          if WellFormedAccount(c.accountId) { credential := Some(c); } else { failure := Some(InvalidInput); }
        case LinksEvent(newLinks) => links := newLinks;
      }
      if failure.Some? { Restore(saved); } else { CommitKeepsInv(env, saved, e); }
    }

    /** Any sequence of requests leaves the store in the state the specified run leads to. */
    method Serve(events: seq<Event>)
      requires Valid()
      modifies this
      ensures State() == Run(env, old(State()), events)
      ensures Valid()
    {
      hide Inv, Perform;
      for k := 0 to |events|
        invariant Valid()
        invariant Run(env, old(State()), events) == Run(env, State(), events[k..])
      {
        var failure := Transaction(events[k]);
      }
    }
  }

  lemma EligibleInRange(db: Db, ids: seq<nat>)
    requires RowsEligible(db, ids)
    ensures InRange(ids, |db.checkouts|)
  {
  }
}
