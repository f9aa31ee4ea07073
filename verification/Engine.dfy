/** Publishing a provider snapshot and reviewing its issues: the commission state machine. */
module Engine {
  import opened Prelude
  import opened Contract
  import opened Digests
  import opened Money
  import opened Payment
  import opened Inspection
  import opened Attribution
  import opened Wallets
  import opened Tables

  /** The sync batch a snapshot belongs to. */
  datatype Sync = Sync(accountId: string, expectedAffiliate: string, credentialVersion: nat)

  /** The rows of one external checkout; the ingest loop never makes an empty group. */
  datatype Group = Group(checkoutId: string, rows: seq<Item>)

  /** Who a published commission belongs to, and whether its rows name somebody else. */
  datatype Owner = Owner(user: Option<UserId>, link: Option<string>, changed: bool)

  /** What a snapshot of one checkout says. */
  datatype Finding = Finding(conversion: Conversion, amount: nat, owner: Owner, issues: seq<IssueType>)

  function OwnerOf(previous: Option<Checkout>, link: Option<Link>): Owner {
    if previous.Some? && previous.value.commission.user.Some?
       && (link.None? || Some(link.value.userId) != previous.value.commission.user)
    then Owner(previous.value.commission.user, previous.value.commission.link, true)
    else if link.Some? then Owner(Some(link.value.userId), Some(link.value.id), false)
    else Owner(None, None, false)
  }

  predicate ForeignAffiliate(rows: seq<Item>, affiliate: string) {
    exists r :: r in rows && r.affiliate != affiliate
  }

  /** Issues found before the previous state of the checkout is looked at. */
  function SnapshotIssues(env: Env, db: Db, sync: Sync, g: Group): seq<IssueType>
    requires db.credential.Some?
  {
    var s := Inspect(env, g.rows).issues;
    var s := AddIf(s, !db.credential.value.verified, AccountUnitUnverified);
    var s := AddIf(s, ForeignAffiliate(g.rows, sync.expectedAffiliate), AffiliateAccountMismatch);
    var known := KnownElsewhere(db.checkouts, ProviderScope(sync.accountId), g.checkoutId);
    var s := AddIf(s, known, CrossProviderDuplicate);
    AddIf(s, Attribute(db.links, g.rows).None?, IssueType.InvalidAttribution)
  }

  function FindingOf(env: Env, db: Db, sync: Sync, g: Group, previous: Option<Checkout>): Finding
    requires db.credential.Some?
  {
    var owner := OwnerOf(previous, Attribute(db.links, g.rows));
    var s := SnapshotIssues(env, db, sync, g);
    var s := AddIf(s, owner.changed, AttributionChanged);
    var s := AddIf(s, previous.Some? && EverPaid(previous.value.commission), PaidCommissionChanged);
    var inspected := Inspect(env, g.rows);
    Finding(inspected.conversion, inspected.amount, owner, s)
  }

  /** Resolve a checkout's open issues, except those raised for the digest to keep. */
  function Close(issues: seq<Issue>, provider: string, checkoutId: string, keep: Option<Digest>): (r: seq<Issue>)
    ensures |r| == |issues|
    ensures forall k :: 0 <= k < |r| ==> r[k] == CloseOne(issues[k], provider, checkoutId, keep)
  {
    seq(|issues|, k requires 0 <= k < |issues| => CloseOne(issues[k], provider, checkoutId, keep))
  }

  function CloseOne(issue: Issue, provider: string, checkoutId: string, keep: Option<Digest>): Issue {
    if IssueOf(issue, provider, checkoutId) && issue.open && Some(issue.sourceHash) != keep
    then issue.(open := false) else issue
  }

  /** Open an issue for every kind that is not open yet. */
  function Raise(issues: seq<Issue>, provider: string, checkoutId: string, kinds: seq<IssueType>,
        hash: Digest): seq<Issue>
  {
    if kinds == [] then issues
    else
      var n := |kinds| - 1;
      var before := Raise(issues, provider, checkoutId, kinds[..n], hash);
      var issue := Issue(provider, checkoutId, kinds[n], hash, true);
      if issue in before then before else before + [issue]
  }

  /** The state of a commission that was never paid. */
  function NewState(env: Env, f: Finding, rows: seq<Item>): CommissionState {
    if f.issues != [] then CommissionState.ManualReview
    else if f.conversion.Rejected? then CommissionState.Rejected
    else if forall r :: r in rows ==> RowState(env, r).Rejected? then CommissionState.Rejected
    else if PaymentBlockers(env, rows) != [] then CommissionState.Estimated
    else CommissionState.Validated
  }

  function CashbackStateFor(state: CommissionState): CashbackState {
    match state
    case Validated => CashbackValidated
    case Rejected => CashbackRejected
    case _ => CashbackPending
  }

  /** The cashback upsert: the user's share in basis points is fixed when the row is created. */
  function CashbackFor(existing: Option<Cashback>, policy: Option<Policy>, amount: nat,
        state: CommissionState): Cashback {
    var bps := if existing.Some? then existing.value.userBps else PolicyOr(policy).userBps;
    var split := SplitCashback(amount, bps).value;
    Cashback(bps, split.user, split.platform, CashbackStateFor(state))
  }

  function PreviousCashback(previous: Option<Checkout>): Option<Cashback> {
    if previous.Some? then previous.value.commission.cashback else None
  }

  function PublishedCommission(env: Env, policy: Option<Policy>, previous: Option<Checkout>, f: Finding,
        rows: seq<Item>): Commission {
    var state := NewState(env, f, rows);
    Commission(f.owner.user, f.owner.link, state, f.amount, f.amount,
               if previous.Some? then previous.value.commission.settledVnd else 0,
               if f.owner.user.Some? then Some(CashbackFor(PreviousCashback(previous), policy, f.amount, state))
               else PreviousCashback(previous))
  }

  function PublishedCheckout(env: Env, sync: Sync, g: Group, previous: Option<Checkout>, f: Finding,
        c: Commission): Checkout {
    Checkout(ProviderScope(sync.accountId),
             if previous.Some? then previous.value.accountId else sync.accountId,
             g.checkoutId,
             if previous.Some? then previous.value.revision + 1 else 1,
             DigestOf(env.json, g.rows),
             if f.issues != [] then Conversion.ManualReview else f.conversion,
             f.conversion, f.amount, g.rows, c)
  }

  /** A paid commission is reversed when its checkout is wholly cancelled and nothing else is wrong. */
  predicate MustReverse(previous: Checkout, f: Finding) {
    && previous.commission.state.Paid?
    && f.conversion.Rejected?
    && forall t :: t in f.issues ==> t == PaidCommissionChanged
  }

  function ReversedCommission(c: Commission): Commission {
    c.(state := CommissionState.Reversed,
       cashback := if c.cashback.Some? then Some(c.cashback.value.(state := CashbackReversed)) else None)
  }

  function ReversalPosting(id: nat, c: Commission): Posting
    requires c.user.Some? && c.cashback.Some?
  {
    Posting(c.user.value, ReversalKey(id), CashbackReversal, 0 - c.cashback.value.userAmount, 0,
            CommissionRef(id), None)
  }

  /** The ledger after reversing a paid commission. */
  function Reverse(acc: Accounts, id: nat, c: Commission): Result<Accounts> {
    if c.user.Some? && c.cashback.Some? then Post(acc, ReversalPosting(id, c)) else Ok(acc)
  }

  function Store(db: Db, sync: Sync, g: Group, at: Option<nat>, f: Finding, row: Checkout): Db
    requires at.Some? ==> at.value < |db.checkouts|
  {
    var provider := ProviderScope(sync.accountId);
    db.(checkouts := Put(db.checkouts, at, row),
        issues := Raise(Close(db.issues, provider, g.checkoutId, Some(row.sourceHash)),
                        provider, g.checkoutId, f.issues, row.sourceHash))
  }

  function PublishUnpaid(env: Env, db: Db, sync: Sync, g: Group, at: Option<nat>, f: Finding): Db
    requires at.Some? ==> at.value < |db.checkouts|
  {
    var previous := if at.Some? then Some(db.checkouts[at.value]) else None;
    var row := PublishedCheckout(env, sync, g, previous, f, PublishedCommission(env, db.policy, previous, f, g.rows));
    Store(db, sync, g, at, f, row).(policy := if f.owner.user.Some? then Some(PolicyOr(db.policy)) else db.policy)
  }

  function PublishPaid(env: Env, db: Db, sync: Sync, g: Group, at: nat, f: Finding): Result<Db>
    requires at < |db.checkouts|
  {
    var previous := db.checkouts[at];
    if MustReverse(previous, f) then
      var row := PublishedCheckout(env, sync, g, Some(previous), f, ReversedCommission(previous.commission));
      var accounts := Reverse(db.accounts, at, previous.commission);
      if accounts.Err? then Err(accounts.error)
      else Ok(Store(db, sync, g, Some(at), f, row).(accounts := accounts.value))
    else
      Ok(Store(db, sync, g, Some(at), f, PublishedCheckout(env, sync, g, Some(previous), f, previous.commission)))
  }

  /** Publishing what was found: paid commissions keep their money, all others are rebuilt. */
  function PublishFinding(env: Env, db: Db, sync: Sync, g: Group, at: Option<nat>, f: Finding): (r: Result<Db>)
    requires at.Some? ==> at.value < |db.checkouts|
    ensures r.Ok? ==> SameElsewhere(db, r.value)
  {
    if at.Some? && EverPaid(db.checkouts[at.value].commission) then PublishPaid(env, db, sync, g, at.value, f)
    else Ok(PublishUnpaid(env, db, sync, g, at, f))
  }

  /** The tables publishing never writes. */
  predicate SameElsewhere(a: Db, b: Db) {
    b.credential == a.credential && b.links == a.links && b.batches == a.batches && b.withdrawals == a.withdrawals
  }

  /** The stored row of a group's checkout, if there is one. */
  function RowAt(db: Db, sync: Sync, g: Group): (at: Option<nat>)
    ensures at.Some? ==> at.value < |db.checkouts|
  {
    FindCheckout(db.checkouts, ProviderScope(sync.accountId), g.checkoutId)
  }

  /** The snapshot is the one already stored. */
  predicate Unchanged(env: Env, db: Db, sync: Sync, g: Group) {
    var at := RowAt(db, sync, g);
    at.Some? && db.checkouts[at.value].sourceHash == DigestOf(env.json, g.rows)
  }

  /** One iteration of `publish`. */
  function PublishOne(env: Env, db: Db, sync: Sync, g: Group): (r: Result<Db>)
    requires db.credential.Some?
    ensures r.Ok? ==> SameElsewhere(db, r.value)
  {
    if Unchanged(env, db, sync, g) then Ok(db)
    else
      var at := RowAt(db, sync, g);
      PublishFinding(env, db, sync, g, at,
        FindingOf(env, db, sync, g, if at.Some? then Some(db.checkouts[at.value]) else None))
  }

  function PublishAll(env: Env, db: Db, sync: Sync, groups: seq<Group>): Result<Db>
    requires db.credential.Some?
    decreases |groups|
  {
    if groups == [] then Ok(db)
    else
      var first := PublishOne(env, db, sync, groups[0]);
      if first.Err? then first else PublishAll(env, first.value, sync, groups[1..])
  }

  /** `publish(tx, batch, groups)`. */
  function Publish(env: Env, db: Db, sync: Sync, groups: seq<Group>): Result<Db> {
    if db.credential.None? then Err(NotFound)
    else if db.credential.value.version != sync.credentialVersion || db.credential.value.accountId != sync.accountId
    then Err(CredentialChanged)
    else PublishAll(env, db, sync, groups)
  }

  datatype Action = Approve | Exclude

  datatype Review = Review(action: Action, linkId: Option<string>, acceptedVnd: Option<nat>, revision: nat)

  function FindLinkById(links: seq<Link>, id: string): (r: Option<Link>)
    ensures r.Some? ==> r.value in links && r.value.id == id
  {
    if links == [] then None
    else if links[0].id == id then Some(links[0])
    else FindLinkById(links[1..], id)
  }

  function Excluded(c: Commission): Commission {
    c.(state := CommissionState.Rejected,
       cashback := if c.cashback.Some? then Some(c.cashback.value.(state := CashbackRejected)) else None)
  }

  function Approved(c: Commission, policy: Option<Policy>, link: Link, amount: nat,
        state: CommissionState): Commission {
    c.(state := state, user := Some(link.userId), link := Some(link.id), estimatedVnd := amount,
       cashback := Some(CashbackFor(c.cashback, policy, amount, state)))
  }

  /** Rows an approval may accept: this affiliate's, completed or cancelled. */
  predicate Approvable(rows: seq<Item>, affiliate: string) {
    forall r :: r in rows ==> r.affiliate == affiliate && (CodeOf(r).Completed? || CodeOf(r).Cancelled?)
  }

  /** The commission an approval leads to, or the reason it is refused. */
  function ApprovedCommission(env: Env, db: Db, checkout: Checkout, input: Review): Result<Commission> {
    var c := checkout.commission;
    var rows := checkout.payload;
    if db.credential.None? then Err(NotFound)
    else if !db.credential.value.verified || !db.credential.value.active
            || db.credential.value.accountId != checkout.accountId
    then Err(VerifyAccountAndVndFirst)
    else if !checkout.rawStatus.Validated? && !checkout.rawStatus.PartiallyValidated?
    then Err(ProviderStatusNotEligible)
    else if !Approvable(rows, db.credential.value.expectedAffiliate) then Err(ProviderIdentityOrStatusMismatch)
    else if ClaimedElsewhere(db.checkouts, checkout.provider, checkout.checkoutId)
    then Err(DuplicateCommissionMustBeExcludedFirst)
    else if input.linkId.None? || input.acceptedVnd.None? then Err(AttributionAndAmountRequired)
    else
      var link := FindLinkById(db.links, input.linkId.value);
      var blockers := PaymentBlockers(env, rows);
      if link.None? then Err(NotFound)
      else if link.value.deleted || (c.user.Some? && c.user != Some(link.value.userId)) then Err(AttributionConflict)
      else if exists r :: r in rows && CodeOf(r).Completed? && RowState(env, r).Rejected?
      then Err(Error.ProviderCommissionRejected)
      else if exists b :: b in blockers && b != CommissionNot(PaymentState.Pending)
      then Err(ProviderCommissionNotVerified)
      else if input.acceptedVnd.value > checkout.netRaw then Err(AcceptedAmountExceedsReported)
      else
        var state := if blockers == [] then CommissionState.Validated else CommissionState.Estimated;
        Ok(Approved(c, db.policy, link.value, input.acceptedVnd.value, state))
  }

  function Reviewed(checkout: Checkout, c: Commission, action: Action): Checkout {
    checkout.(commission := c, revision := checkout.revision + 1,
              conversionState := if action.Approve? then Conversion.Validated else Conversion.Rejected)
  }

  /** `review(issueId, input, actor)`. */
  function ReviewIssue(env: Env, db: Db, issueId: nat, input: Review): Result<Db> {
    if issueId >= |db.issues| || !IsAddLiveTag(db.issues[issueId].provider) then Err(IssueNotFound)
    else
      var issue := db.issues[issueId];
      var at := FindCheckout(db.checkouts, issue.provider, issue.checkoutId);
      if at.None? then Err(NotFound)
      else
        var checkout := db.checkouts[at.value];
        if checkout.revision != input.revision || checkout.sourceHash != issue.sourceHash
        then Err(SourceChangedResyncRequired)
        else if !issue.open then Err(IssueAlreadyResolved)
        else if EverPaid(checkout.commission) then Err(UseAuditedWalletAdjustment)
        else
          var c := if input.action.Exclude? then Ok(Excluded(checkout.commission))
                   else ApprovedCommission(env, db, checkout, input);
          if c.Err? then Err(c.error)
          else Ok(db.(checkouts := db.checkouts[at.value := Reviewed(checkout, c.value, input.action)],
                      issues := Close(db.issues, checkout.provider, checkout.checkoutId, None),
                      policy := if input.action.Approve? then Some(PolicyOr(db.policy)) else db.policy))
  }
}
