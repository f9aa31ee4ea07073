/** A purchase from its link to the bank: the conditions of the theorems are met by real runs. */
module Scenario {
  import opened Prelude
  import opened Text
  import opened Contract
  import opened Digests
  import opened Money
  import opened Payment
  import opened Inspection
  import opened Attribution
  import opened Wallets
  import opened Tables
  import opened Engine
  import opened Eligibility
  import opened Withdrawals
  import opened Invariants
  import opened CoreSteps
  import opened Runs
  import opened CommissionTheorems
  import opened PublishTheorems
  import opened Progress

  /** A link a user generated. */
  datatype Generated = Generated(userId: string, linkId: string, channel: string, trackingId: string, productId: string)

  predicate WellFormedLink(l: Generated) {
    IsUuid(l.userId) && IsUuid(l.linkId) && IsUuid(l.trackingId) && IsUuid(l.productId) && l.channel in CHANNELS
  }

  function Saved(l: Generated): Link {
    GeneratedLink(l.userId, l.linkId, Some(l.channel), l.trackingId, l.productId)
  }

  /** The provider reports one completed and paid item bought through the link. */
  ghost predicate GoodPurchase(env: Env, affiliate: string, l: Generated, r: Item) {
    && r.statusCode == "completed"
    && MeansPaid(env, r.commissionStatus)
    && BigIntOf(r.commission) > 0
    && BigIntOf(r.mcnFee) == 0
    && r.affiliate == affiliate
    && NamesItem(env, r)
    && r.utm == PrintedUtm(l.userId, l.linkId, Some(l.channel), l.trackingId, l.productId)
    && r.subId1 == ""
  }

  predicate LiveCredential(c: Credential) {
    WellFormedAccount(c.accountId) && c.active && c.verified
  }

  function Setting(c: Credential, l: Generated): Db {
    EMPTY.(credential := Some(c), links := [Saved(l)])
  }

  function SyncOf(c: Credential): Sync {
    Sync(c.accountId, c.expectedAffiliate, c.version)
  }

  function GroupOf(r: Item): Group {
    Group(r.checkoutId, [r])
  }

  /** The first three steps: the credential and the link are set up, and the purchase is published. */
  function Opening(c: Credential, l: Generated, r: Item): seq<Event> {
    [CredentialEvent(c), LinksEvent([Saved(l)]), PublishEvent(SyncOf(c), [GroupOf(r)])]
  }

  lemma AttributedToLink(l: Generated, r: Item)
    requires WellFormedLink(l) && r.subId1 == ""
    requires r.utm == PrintedUtm(l.userId, l.linkId, Some(l.channel), l.trackingId, l.productId)
    ensures Attribute([Saved(l)], [r]) == Some(Saved(l))
  {
    hide PrintedUtm, GeneratedLink, Attribute;
    GeneratedLinkRoundTrip([Saved(l)], [r], l.userId, l.linkId, l.channel, l.trackingId, l.productId);
  }

  /** There are no grounds for an issue. */
  lemma NoGrounds(env: Env, c: Credential, l: Generated, r: Item, t: IssueType)
    requires WellFormedLink(l) && LiveCredential(c) && GoodPurchase(env, c.expectedAffiliate, l, r)
    ensures !Grounds(env, Setting(c, l), SyncOf(c), GroupOf(r), t)
  {
    hide Attribute, MeansPaid, BigIntOf, NamesItem, PrintedUtm, GeneratedLink;
    AttributedToLink(l, r);
    assert forall x :: x in [r] <==> x == r;
    assert Before(Setting(c, l), SyncOf(c), GroupOf(r)) == None;
  }

  lemma PaidInFull(env: Env, affiliate: string, l: Generated, r: Item)
    requires GoodPurchase(env, affiliate, l, r)
    ensures FullyPaid(env, [r]) && PaymentBlockers(env, [r]) == []
  {
    hide MeansPaid, BigIntOf, NamesItem, PrintedUtm, PaymentBlockers;
    assert r in [r] && forall x :: x in [r] <==> x == r;
    assert Payment.Payable(env, r);
    PaymentGate(env, [r]);
  }

  lemma OpeningRuns(env: Env, c: Credential, l: Generated, r: Item)
    requires LiveCredential(c)
    ensures Run(env, EMPTY, Opening(c, l, r)) ==
      Step(env, Setting(c, l), PublishEvent(SyncOf(c), [GroupOf(r)]))
    ensures Inv(env, Setting(c, l))
  {
    hide Step, Inv;
    RunThree(env, EMPTY, [], CredentialEvent(c), LinksEvent([Saved(l)]), PublishEvent(SyncOf(c), [GroupOf(r)]));
    assert [] + Opening(c, l, r) == Opening(c, l, r);
    SettingSteps(env, c, l);
    EmptyOk(env);
    StepKeepsInv(env, EMPTY, CredentialEvent(c));
    StepKeepsInv(env, Step(env, EMPTY, CredentialEvent(c)), LinksEvent([Saved(l)]));
  }

  lemma SettingSteps(env: Env, c: Credential, l: Generated)
    requires LiveCredential(c)
    ensures Step(env, Step(env, EMPTY, CredentialEvent(c)), LinksEvent([Saved(l)])) == Setting(c, l)
  {
  }

  lemma PublishSingle(env: Env, c: Credential, l: Generated, r: Item)
    requires PublishOne(env, Setting(c, l), SyncOf(c), GroupOf(r)).Ok?
    ensures Step(env, Setting(c, l), PublishEvent(SyncOf(c), [GroupOf(r)])) ==
      PublishOne(env, Setting(c, l), SyncOf(c), GroupOf(r)).value
  {
    hide PublishOne;
    var db, sync, groups := Setting(c, l), SyncOf(c), [GroupOf(r)];
    var first := PublishOne(env, db, sync, groups[0]).value;
    assert groups[1..] == [];
    assert PublishAll(env, first, sync, []) == Ok(first);
    assert PublishAll(env, db, sync, groups) == Ok(first);
    assert Perform(env, db, PublishEvent(sync, groups)) == Publish(env, db, sync, groups);
  }

  /** The published row. */
  lemma PublishedRow(env: Env, c: Credential, l: Generated, r: Item) returns (row: Checkout)
    requires WellFormedLink(l) && LiveCredential(c) && GoodPurchase(env, c.expectedAffiliate, l, r)
    ensures PublishOne(env, Setting(c, l), SyncOf(c), GroupOf(r)).Ok?
    ensures PublishOne(env, Setting(c, l), SyncOf(c), GroupOf(r)).value.checkouts == [row]
    ensures row.payload == [r] && SameCheckout(row, ProviderScope(c.accountId), r.checkoutId)
    ensures row.commission.state.Validated? && row.commission.user == Some(l.userId)
    ensures row.commission.estimatedVnd == BigIntOf(r.commission)
    ensures row.commission.cashback.Some? && row.commission.cashback.value.userBps == DEFAULT_POLICY.userBps
  {
    hide PublishOne, Attribute, MeansPaid, BigIntOf, NamesItem, PrintedUtm, Grounds, FullyPaid, PaymentBlockers;
    hide Amount;
    var db, sync, g := Setting(c, l), SyncOf(c), GroupOf(r);
    assert RowAt(db, sync, g) == None;
    forall t ensures !Grounds(env, db, sync, g, t) { NoGrounds(env, c, l, r, t); }
    PaidInFull(env, c.expectedAffiliate, l, r);
    AttributedToLink(l, r);
    PublishedState(env, db, sync, g);
    PublishOneWrites(env, db, sync, g);
    UnpaidWritten(env, db, sync, g);
    FindingMeans(env, db, sync, g, None);
    SingleAmount(r);
    row := RowAfter(db, PublishOne(env, db, sync, g).value, sync, g).value;
    assert PublishOne(env, db, sync, g).value.checkouts == [row];
  }

  lemma SingleAmount(r: Item)
    ensures Amount([r]) == BigIntOf(r.commission)
  {
    SingleTotal(r, CommissionVnd());
  }

  /** Right after the opening, the purchase's commission is due, for the whole reported amount. */
  lemma PurchaseIsDue(env: Env, c: Credential, l: Generated, r: Item)
    requires WellFormedLink(l) && LiveCredential(c) && GoodPurchase(env, c.expectedAffiliate, l, r)
    ensures var db := Run(env, EMPTY, Opening(c, l, r));
      && Due(env, db, 0)
      && db.checkouts[0].commission.user == Some(l.userId)
      && db.checkouts[0].commission.estimatedVnd == BigIntOf(r.commission)
      && db.checkouts[0].commission.cashback.Some?
      && db.checkouts[0].commission.cashback.value.userBps == DEFAULT_POLICY.userBps
      && |db.checkouts| == 1 && db.batches == [] && db.withdrawals == []
      && db.accounts == EMPTY.accounts && db.policy == Some(DEFAULT_POLICY)
  {
    hide Run, Step, PublishOne, GoodPurchase, PaymentBlockers, BigIntOf, Opening, HasOpenIssue, ClaimedElsewhere, Inv;
    OpeningRuns(env, c, l, r);
    var row := PublishedRow(env, c, l, r);
    FirstPublish(env, c, l, r);
    PublishSingle(env, c, l, r);
    PaidInFull(env, c.expectedAffiliate, l, r);
    var db := Run(env, EMPTY, Opening(c, l, r));
    Reachable(env, Opening(c, l, r));
    assert db == PublishOne(env, Setting(c, l), SyncOf(c), GroupOf(r)).value;
    NoOpenIssue(env, db, 0);
    ProviderScopeInjective(row.accountId, c.accountId);
    PositiveCommission(env, c.expectedAffiliate, l, r);
    assert ProviderBlockers(env, db, row) == [] by {
      hide ProviderBlockers;
      NoProviderBlockers(env, db, row);
      AloneUnclaimed(db.checkouts, row);
    }
    hide ProviderBlockers, Due;
    DueMeans(env, db, 0);
  }

  lemma AloneUnclaimed(checkouts: seq<Checkout>, row: Checkout)
    requires checkouts == [row]
    ensures !ClaimedElsewhere(checkouts, row.provider, row.checkoutId)
  {
  }

  /** A first publish with a user moves no money and stores the default policy. */
  lemma FirstPublish(env: Env, c: Credential, l: Generated, r: Item)
    requires WellFormedLink(l) && GoodPurchase(env, c.expectedAffiliate, l, r)
    ensures PublishOne(env, Setting(c, l), SyncOf(c), GroupOf(r)).Ok?
    ensures var db := PublishOne(env, Setting(c, l), SyncOf(c), GroupOf(r)).value;
      db.accounts == EMPTY.accounts && db.policy == Some(DEFAULT_POLICY)
  {
    hide GoodPurchase, FindingOf, PublishedCommission, DigestOf, Close, Raise, PublishPaid, Attribute;
    assert RowAt(Setting(c, l), SyncOf(c), GroupOf(r)) == None;
    LinkOwner(env, c, l, r);
  }

  lemma LinkOwner(env: Env, c: Credential, l: Generated, r: Item)
    requires WellFormedLink(l) && GoodPurchase(env, c.expectedAffiliate, l, r)
    ensures FindingOf(env, Setting(c, l), SyncOf(c), GroupOf(r), None).owner.user == Some(l.userId)
  {
    hide Attribute, FindingOf, MeansPaid, BigIntOf, NamesItem, PrintedUtm;
    AttributedToLink(l, r);
    FindingMeans(env, Setting(c, l), SyncOf(c), GroupOf(r), None);
  }

  lemma PositiveCommission(env: Env, affiliate: string, l: Generated, r: Item)
    requires GoodPurchase(env, affiliate, l, r)
    ensures BigIntOf(r.commission) > 0
  {
  }

  lemma NoOpenIssue(env: Env, db: Db, i: nat)
    requires Inv(env, db) && i < |db.checkouts| && db.checkouts[i].commission.state.Validated?
    ensures !HasOpenIssue(db.issues, db.checkouts[i].provider, db.checkouts[i].checkoutId)
    ensures db.checkouts[i].provider == ProviderScope(db.checkouts[i].accountId)
  {
    hide LedgerOk, BooksOk, OnePaid, UniqueCheckouts, OpenIssuesCurrent, BatchesOk, PaymentBlockers, Coherent;
    hide HasOpenIssue;
    assert RowOk(env, db.checkouts[i]);
  }

  /**
   * From the link to the bank. A user whose link led to one completed and paid purchase can be paid the
   * user's share of its commission, and can withdraw any part of it from the minimum up.
   */
  lemma EarnAndWithdraw(env: Env, c: Credential, l: Generated, r: Item, request: WithdrawalRequest)
        returns (events: seq<Event>)
    requires WellFormedLink(l) && LiveCredential(c) && GoodPurchase(env, c.expectedAffiliate, l, r)
    requires env.settlementEnabled && env.withdrawalsEnabled && request.bankApproved && request.user == l.userId
    requires DEFAULT_POLICY.minWithdrawal <= request.amount
    requires request.amount <= BigIntOf(r.commission) * DEFAULT_POLICY.userBps / FULL_BPS
    ensures var db := Run(env, EMPTY, events);
      && |db.checkouts| == 1 && db.checkouts[0].commission.state.Paid?
      && db.withdrawals ==
           [Withdrawal(l.userId, request.key, request.bankId, request.amount, WithdrawalStatus.Completed)]
      && Available(db.accounts, l.userId) == BigIntOf(r.commission) * DEFAULT_POLICY.userBps / FULL_BPS - request.amount
      && Reserved(db.accounts, l.userId) == 0
  {
    hide Run, Due, GoodPurchase, BigIntOf, Opening, FindWithdrawal;
    var start := Opening(c, l, r);
    var first := Run(env, EMPTY, start);
    PurchaseIsDue(env, c, l, r);
    DueBounds(env, c, l, r);
    DueAloneCanBePaid(env, start, 0, "");
    var earned := start + [CreateEvent(FullRequest(first.checkouts[0], 0, ""))] + [ConfirmEvent(0)];
    var paid := Run(env, EMPTY, earned);
    NothingBooked(l.userId);
    NoRequests(paid.withdrawals, request.user, request.key);
    CoveredCanBeWithdrawn(env, earned, request);
    events := earned + Payout(request, 0);
  }

  lemma DueBounds(env: Env, c: Credential, l: Generated, r: Item)
    requires Due(env, Run(env, EMPTY, Opening(c, l, r)), 0)
    ensures |Run(env, EMPTY, Opening(c, l, r)).checkouts| > 0
  {
    hide Run, ProviderBlockers;
  }

  lemma NothingBooked(user: UserId)
    ensures Available(EMPTY.accounts, user) == 0 && Reserved(EMPTY.accounts, user) == 0
  {
  }

  lemma NoRequests(ws: seq<Withdrawal>, user: UserId, key: string)
    requires ws == []
    ensures FindWithdrawal(ws, user, key).None?
  {
  }
}
