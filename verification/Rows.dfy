/** How publishing, reviewing and paying change a single checkout row. */
module Rows {
  import opened Prelude
  import opened Contract
  import opened Digests
  import opened Money
  import opened Payment
  import opened Inspection
  import opened Attribution
  import opened Tables
  import opened Engine
  import opened Settlement
  import opened Invariants

  predicate SameIdentity(a: Checkout, b: Checkout) {
    b.provider == a.provider && b.accountId == a.accountId && b.checkoutId == a.checkoutId
  }

  /** The user, and the user's share in basis points, are written once. */
  predicate WriteOnce(a: Commission, b: Commission) {
    && (a.user.Some? ==> b.user == a.user)
    && (a.cashback.Some? ==> b.cashback.Some? && b.cashback.value.userBps == a.cashback.value.userBps)
  }

  /** Money that was paid stays on record; a reversal only marks it. */
  predicate MoneyKept(a: Checkout, b: Checkout) {
    && (EverPaid(a.commission) <==> EverPaid(b.commission))
    && (a.commission.state.Reversed? ==> b.commission.state.Reversed?)
    && (StakeOf(a).Stake? <==> StakeOf(b).Stake?)
    && (StakeOf(a).Stake? ==>
          && (StakeOf(a).reversed || StakeOf(b).reversed ==> StakeOf(b) == StakeOf(a).(reversed := true))
          && (!StakeOf(a).reversed && !StakeOf(b).reversed ==> StakeOf(b) == StakeOf(a)))
  }

  /** A publish or review of the checkout: the revision grows. */
  predicate Bumped(a: Checkout, b: Checkout) {
    SameIdentity(a, b) && b.revision > a.revision && WriteOnce(a.commission, b.commission) && MoneyKept(a, b)
  }

  /** A payment: nothing but the state, the settled amount and the shares changes. */
  predicate PaidFrom(a: Checkout, b: Checkout) {
    && b == a.(commission := a.commission.(state := CommissionState.Paid, settledVnd := b.commission.settledVnd,
                                           cashback := b.commission.cashback))
    && a.commission.state.Validated?
    && WriteOnce(a.commission, b.commission)
  }

  /** What a snapshot says, as far as the invariants need it. */
  predicate Sound(f: Finding, checkouts: seq<Checkout>, sync: Sync, g: Group, previous: Option<Checkout>) {
    && f.conversion == ConversionOf(g.rows)
    && f.amount == Amount(g.rows)
    && (f.issues == [] ==> f.owner.user.Some?)
    && (f.issues == [] ==> !KnownElsewhere(checkouts, ProviderScope(sync.accountId), g.checkoutId))
    && (previous.Some? && previous.value.commission.user.Some? ==> f.owner.user == previous.value.commission.user)
  }

  lemma FindingIsSound(env: Env, db: Db, sync: Sync, g: Group, previous: Option<Checkout>)
    requires db.credential.Some?
    ensures Sound(FindingOf(env, db, sync, g, previous), db.checkouts, sync, g, previous)
  {
    var f := FindingOf(env, db, sync, g, previous);
    var link := Attribute(db.links, g.rows);
    if link.None? {
      assert IssueType.InvalidAttribution in f.issues;
    }
    if KnownElsewhere(db.checkouts, ProviderScope(sync.accountId), g.checkoutId) {
      assert CrossProviderDuplicate in f.issues;
    }
  }

  /** The row a group is published into, before publishing. */
  ghost predicate Target(env: Env, sync: Sync, g: Group, previous: Option<Checkout>) {
    && WellFormedAccount(sync.accountId)
    && g.rows != []
    && (previous.Some? ==>
          RowOk(env, previous.value) && SameCheckout(previous.value, ProviderScope(sync.accountId), g.checkoutId))
  }

  lemma CashbackIsSplit(existing: Option<Cashback>, policy: Option<Policy>, amount: nat, state: CommissionState)
    ensures var c := CashbackFor(existing, policy, amount, state);
      && SplitCashback(amount, c.userBps) == Ok(Split(c.userAmount, c.platformAmount))
      && c.state == CashbackStateFor(state)
      && (existing.Some? ==> c.userBps == existing.value.userBps)
  {
  }

  /** A cashback row that splits an amount by basis points, in the state that goes with its commission's. */
  predicate Shares(b: Cashback, bps: nat, amount: nat, state: CommissionState) {
    && b.userBps == bps
    && b.userAmount == amount * bps / 10000 && b.platformAmount == amount - amount * bps / 10000
    && (b.state.CashbackValidated? <==> state.Validated?)
    && (b.state.CashbackRejected? <==> state.Rejected?)
    && (b.state.CashbackPending? <==> state.Estimated? || state.ManualReview?)
  }

  lemma CashbackShares(existing: Option<Cashback>, policy: Option<Policy>, amount: nat, state: CommissionState)
    requires state.Validated? || state.Rejected? || state.Estimated? || state.ManualReview?
    ensures Shares(CashbackFor(existing, policy, amount, state),
                   if existing.Some? then existing.value.userBps
                   else if policy.Some? then policy.value.userBps else 8000, amount, state)
  {
  }

  /** Publishing an unpaid commission leaves a well-formed unpaid row. */
  lemma UnpaidRowOk(env: Env, policy: Option<Policy>, checkouts: seq<Checkout>, sync: Sync, g: Group,
        previous: Option<Checkout>, f: Finding)
    requires Target(env, sync, g, previous) && Sound(f, checkouts, sync, g, previous)
    requires previous.Some? ==> !EverPaid(previous.value.commission)
    ensures var c := PublishedCommission(env, policy, previous, f, g.rows);
      && Coherent(c) && !EverPaid(c)
      && (c.state.ManualReview? <==> f.issues != [])
      && (c.state.Validated? ==> PaymentBlockers(env, g.rows) == [])
      && (previous.Some? ==> WriteOnce(previous.value.commission, c))
  {
    var state := NewState(env, f, g.rows);
    CashbackIsSplit(PreviousCashback(previous), policy, f.amount, state);
    assert previous.Some? ==> Coherent(previous.value.commission);
  }

  lemma UnpaidCheckoutOk(env: Env, sync: Sync, g: Group, previous: Option<Checkout>, f: Finding, c: Commission,
        checkouts: seq<Checkout>)
    requires Target(env, sync, g, previous) && Sound(f, checkouts, sync, g, previous)
    requires Coherent(c) && c.rawAmount == f.amount && !EverPaid(c)
    requires c.state.Validated? ==> PaymentBlockers(env, g.rows) == []
    requires previous.Some? ==> !EverPaid(previous.value.commission) && WriteOnce(previous.value.commission, c)
    ensures var row := PublishedCheckout(env, sync, g, previous, f, c);
      && RowOk(env, row) && StakeOf(row) == NoStake
      && SameCheckout(row, ProviderScope(sync.accountId), g.checkoutId)
      && (previous.Some? ==> Bumped(previous.value, row))
  {
    if previous.Some? {
      ProviderScopeInjective(previous.value.accountId, sync.accountId);
    }
  }

  /** Publishing over a paid commission keeps its money; a reversal marks it. */
  lemma PaidCheckoutOk(env: Env, sync: Sync, g: Group, previous: Checkout, f: Finding, reverse: bool,
        checkouts: seq<Checkout>)
    requires Target(env, sync, g, Some(previous)) && Sound(f, checkouts, sync, g, Some(previous))
    requires EverPaid(previous.commission) && (reverse ==> previous.commission.state.Paid?)
    ensures var c := if reverse then ReversedCommission(previous.commission) else previous.commission;
      var row := PublishedCheckout(env, sync, g, Some(previous), f, c);
      && RowOk(env, row) && EverPaid(row.commission)
      && SameCheckout(row, ProviderScope(sync.accountId), g.checkoutId)
      && Bumped(previous, row)
      && (reverse ==> StakeOf(row) == StakeOf(previous).(reversed := true) && !StakeOf(previous).reversed)
      && (!reverse ==> StakeOf(row) == StakeOf(previous))
  {
    ProviderScopeInjective(previous.accountId, sync.accountId);
  }

  /** A review of an unpaid commission leaves a well-formed unpaid row that is not under review. */
  lemma ReviewedRowOk(env: Env, db: Db, checkout: Checkout, input: Review)
    requires RowOk(env, checkout) && !EverPaid(checkout.commission)
    requires input.action.Exclude? || ApprovedCommission(env, db, checkout, input).Ok?
    ensures var c := if input.action.Exclude? then Excluded(checkout.commission)
                     else ApprovedCommission(env, db, checkout, input).value;
      var row := Reviewed(checkout, c, input.action);
      && RowOk(env, row) && StakeOf(row) == NoStake && !EverPaid(c) && !c.state.ManualReview?
      && Bumped(checkout, row)
  {
    hide DigestOf, PaymentBlockers, Approvable, ClaimedElsewhere;
    if input.action.Approve? {
      var c := ApprovedCommission(env, db, checkout, input).value;
      CashbackIsSplit(checkout.commission.cashback, db.policy, input.acceptedVnd.value, c.state);
    }
  }

  /** Paying a validated commission. */
  lemma PaidRowOk(env: Env, row: Checkout, net: nat)
    requires RowOk(env, row) && row.commission.state.Validated?
    ensures row.commission.user.Some? && row.commission.cashback.Some?
    ensures var paid := row.(commission := PaidCommission(row.commission, net));
      && RowOk(env, paid) && PaidFrom(row, paid)
      && StakeOf(row) == NoStake
      && StakeOf(paid) == Stake(false, row.commission.user, paid.commission.cashback.value.userAmount,
                                paid.commission.cashback.value.platformAmount, net,
                                row.commission.estimatedVnd, row.commission.rawAmount)
  {
  }
}
