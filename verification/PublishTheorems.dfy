/** What publishing a snapshot does, told without the code: which issues it opens and which state results. */
module PublishTheorems {
  import opened Prelude
  import opened Text
  import opened Contract
  import opened Digests
  import opened Payment
  import opened Inspection
  import opened Attribution
  import opened Wallets
  import opened Tables
  import opened Engine
  import opened Invariants
  import opened Rows
  import opened Issues
  import opened CoreSteps

  /** The commission stored for a group's checkout, if there is one. */
  function Before(db: Db, sync: Sync, g: Group): Option<Commission> {
    var at := RowAt(db, sync, g);
    if at.Some? then Some(db.checkouts[at.value].commission) else None
  }

  predicate WasPaid(db: Db, sync: Sync, g: Group) {
    var c := Before(db, sync, g);
    c.Some? && (c.value.state.Paid? || c.value.state.Reversed?)
  }

  /** What is wrong with the rows themselves. */
  ghost predicate RowGrounds(env: Env, rows: seq<Item>, t: IssueType) {
    match t
    case UnknownCommissionStatus =>
      exists r :: r in rows && r.statusCode in ["completed", "paid"] && Means(env, r.commissionStatus, Unknown)
    case PartialCheckoutReview => exists r, s :: r in rows && s in rows && r.statusCode != s.statusCode
    case UnknownStatus => exists r :: r in rows && r.statusCode !in ["completed", "paid", "cancelled"]
    case McnFeeReview => exists r :: r in rows && BigIntOf(r.mcnFee) != 0
    case CancelledCommission => exists r :: r in rows && r.statusCode == "cancelled" && BigIntOf(r.commission) != 0
    case InvalidItemReference => exists r :: r in rows && !NamesItem(env, r)
    case AmbiguousItemIdentity => Ambiguous(env, rows)
    case _ => false
  }

  /** What is wrong between the rows and the database. */
  ghost predicate StoreGrounds(db: Db, sync: Sync, g: Group, t: IssueType)
    requires db.credential.Some?
  {
    match t
    case AccountUnitUnverified => !db.credential.value.verified
    case AffiliateAccountMismatch => exists r :: r in g.rows && r.affiliate != sync.expectedAffiliate
    case CrossProviderDuplicate =>
      exists c :: c in db.checkouts && c.checkoutId == g.checkoutId && c.provider != "ADDLIVETAG:" + sync.accountId
    case InvalidAttribution => Attribute(db.links, g.rows).None?
    case AttributionChanged =>
      var c := Before(db, sync, g); var link := Attribute(db.links, g.rows);
      c.Some? && c.value.user.Some? && (link.Some? ==> c.value.user != Some(link.value.userId))
    case PaidCommissionChanged => WasPaid(db, sync, g)
    case _ => false
  }

  /** When a snapshot of a checkout deserves an issue. */
  ghost predicate Grounds(env: Env, db: Db, sync: Sync, g: Group, t: IssueType)
    requires db.credential.Some?
  {
    RowGrounds(env, g.rows, t) || StoreGrounds(db, sync, g, t)
  }

  lemma InspectParts(env: Env, rows: seq<Item>, t: IssueType)
    ensures t in Inspect(env, rows).issues <==>
      || t in SummaryIssues(env, rows)
      || (t == InvalidItemReference && exists r :: r in rows && !NamesItem(env, r))
      || (t == AmbiguousItemIdentity && Ambiguous(env, rows))
  {
    hide NamesItem, Ambiguous, SummaryIssues;
    WalkIssuesExact(env, rows);
  }

  lemma CodeMeans(r: Item)
    ensures Counts(r) <==> r.statusCode in ["completed", "paid"]
    ensures CodeOf(r).Other? <==> r.statusCode !in ["completed", "paid", "cancelled"]
    ensures CodeOf(r).Cancelled? <==> r.statusCode == "cancelled"
  {
  }

  lemma SummaryExact(env: Env, rows: seq<Item>)
    ensures HasUnknownPayment(env, rows) <==> RowGrounds(env, rows, UnknownCommissionStatus)
    ensures ConversionOf(rows).PartiallyValidated? <==> RowGrounds(env, rows, PartialCheckoutReview)
    ensures HasUnknownStatus(rows) <==> RowGrounds(env, rows, UnknownStatus)
    ensures HasMcnFee(rows) <==> RowGrounds(env, rows, McnFeeReview)
    ensures HasCancelledCommission(rows) <==> RowGrounds(env, rows, CancelledCommission)
  {
    hide ConversionOf, Codes, BigIntOf, RowState, CodeOf, Counts, Means;
    PartialExact(rows);
    forall r | r in rows
      ensures RowState(env, r).Unknown? <==> Means(env, r.commissionStatus, Unknown)
      ensures Counts(r) <==> r.statusCode in ["completed", "paid"]
      ensures CodeOf(r).Other? <==> r.statusCode !in ["completed", "paid", "cancelled"]
      ensures CodeOf(r).Cancelled? <==> r.statusCode == "cancelled"
    {
      UnknownMeans(env, r);
      CodeMeans(r);
    }
  }

  lemma UnknownMeans(env: Env, r: Item)
    ensures RowState(env, r).Unknown? <==> Means(env, r.commissionStatus, Unknown)
  {
    hide PaymentStateOf, MeansPaid, MeansRejected, MeansPending;
    LabelMeans(env, r.commissionStatus);
  }

  lemma InspectedExact(env: Env, rows: seq<Item>, t: IssueType)
    ensures t in Inspect(env, rows).issues <==> RowGrounds(env, rows, t)
  {
    InspectParts(env, rows, t);
    SummaryExact(env, rows);
    hide Inspect, WalkIssues, ConversionOf, NamesItem, Ambiguous, BigIntOf, Means;
    hide HasUnknownPayment, HasUnknownStatus, HasMcnFee, HasCancelledCommission;
  }

  lemma FindingParts(env: Env, db: Db, sync: Sync, g: Group, previous: Option<Checkout>, t: IssueType)
    requires db.credential.Some?
    ensures t in FindingOf(env, db, sync, g, previous).issues <==>
      || t in Inspect(env, g.rows).issues
      || (t.AccountUnitUnverified? && !db.credential.value.verified)
      || (t.AffiliateAccountMismatch? && ForeignAffiliate(g.rows, sync.expectedAffiliate))
      || (t.CrossProviderDuplicate? && KnownElsewhere(db.checkouts, ProviderScope(sync.accountId), g.checkoutId))
      || (t.InvalidAttribution? && Attribute(db.links, g.rows).None?)
      || (t.AttributionChanged? && OwnerOf(previous, Attribute(db.links, g.rows)).changed)
      || (t.PaidCommissionChanged? && previous.Some? && EverPaid(previous.value.commission))
  {
    hide Inspect, Attribute, KnownElsewhere, ForeignAffiliate, OwnerOf;
  }

  lemma StoreExact(db: Db, sync: Sync, g: Group, t: IssueType)
    requires db.credential.Some?
    ensures var at := RowAt(db, sync, g); var previous := if at.Some? then Some(db.checkouts[at.value]) else None;
      StoreGrounds(db, sync, g, t) <==>
        || (t.AccountUnitUnverified? && !db.credential.value.verified)
        || (t.AffiliateAccountMismatch? && ForeignAffiliate(g.rows, sync.expectedAffiliate))
        || (t.CrossProviderDuplicate? && KnownElsewhere(db.checkouts, ProviderScope(sync.accountId), g.checkoutId))
        || (t.InvalidAttribution? && Attribute(db.links, g.rows).None?)
        || (t.AttributionChanged? && OwnerOf(previous, Attribute(db.links, g.rows)).changed)
        || (t.PaidCommissionChanged? && previous.Some? && EverPaid(previous.value.commission))
  {
    hide Attribute, KnownElsewhere, RowAt;
    KnownExact(db.checkouts, ProviderScope(sync.accountId), g.checkoutId);
  }

  lemma KnownExact(checkouts: seq<Checkout>, provider: string, checkoutId: string)
    ensures KnownElsewhere(checkouts, provider, checkoutId) <==>
      exists c :: c in checkouts && c.checkoutId == checkoutId && c.provider != provider
  {
  }

  /** A snapshot raises an issue exactly on its grounds. */
  lemma FindingExact(env: Env, db: Db, sync: Sync, g: Group, t: IssueType)
    requires db.credential.Some?
    ensures var at := RowAt(db, sync, g); var previous := if at.Some? then Some(db.checkouts[at.value]) else None;
      t in FindingOf(env, db, sync, g, previous).issues <==> Grounds(env, db, sync, g, t)
  {
    hide FindingOf, Inspect, Attribute, KnownElsewhere, RowGrounds, StoreGrounds, OwnerOf, ForeignAffiliate;
    var at := RowAt(db, sync, g);
    InspectedExact(env, g.rows, t);
    StoreExact(db, sync, g, t);
    FindingParts(env, db, sync, g, if at.Some? then Some(db.checkouts[at.value]) else None, t);
  }

  lemma SameMembers(a: seq<Item>, b: seq<Item>)
    requires multiset(a) == multiset(b)
    ensures forall r :: r in a <==> r in b
  {
    assert forall r :: r in a <==> r in multiset(a);
    assert forall r :: r in b <==> r in multiset(b);
  }

  /**
   * What a snapshot says does not depend on the order of its rows: not the conversion, the amount, the
   * owner or the issues, and so not the commission that is published either.
   */
  lemma FindingPermutation(env: Env, db: Db, sync: Sync, g: Group, h: Group, previous: Option<Checkout>)
    requires db.credential.Some? && h.checkoutId == g.checkoutId && multiset(g.rows) == multiset(h.rows)
    ensures var x, y := FindingOf(env, db, sync, g, previous), FindingOf(env, db, sync, h, previous);
      && x.conversion == y.conversion && x.amount == y.amount && x.owner == y.owner
      && (forall t :: t in x.issues <==> t in y.issues)
      && PublishedCommission(env, db.policy, previous, x, g.rows) ==
           PublishedCommission(env, db.policy, previous, y, h.rows)
  {
    hide Inspect, Attribute, KnownElsewhere, OwnerOf, PaymentBlockers, RowState, CashbackFor;
    SameMembers(g.rows, h.rows);
    InspectPermutation(env, g.rows, h.rows);
    AttributionPermutation(db.links, g.rows, h.rows);
    PaymentGatePermutation(env, g.rows, h.rows);
    var x, y := FindingOf(env, db, sync, g, previous), FindingOf(env, db, sync, h, previous);
    OwnerFound(env, db, sync, g, previous);
    OwnerFound(env, db, sync, h, previous);
    forall t ensures t in x.issues <==> t in y.issues {
      FindingParts(env, db, sync, g, previous, t);
      FindingParts(env, db, sync, h, previous, t);
    }
    hide FindingOf;
    assert x.issues != [] ==> x.issues[0] in y.issues;
    assert y.issues != [] ==> y.issues[0] in x.issues;
  }

  lemma OwnerFound(env: Env, db: Db, sync: Sync, g: Group, previous: Option<Checkout>)
    requires db.credential.Some?
    ensures var f := FindingOf(env, db, sync, g, previous);
      && f.owner == OwnerOf(previous, Attribute(db.links, g.rows))
      && f.conversion == Inspect(env, g.rows).conversion && f.amount == Inspect(env, g.rows).amount
  {
    hide Inspect, Attribute, SnapshotIssues, OwnerOf;
  }

  /** Every row's label was rejected. */
  ghost predicate AllRejected(env: Env, rows: seq<Item>) {
    forall r :: r in rows ==> MeansRejected(env, r.commissionStatus)
  }

  predicate AllOf(rows: seq<Item>, statusCode: string) {
    forall r :: r in rows ==> r.statusCode == statusCode
  }

  lemma UniformCodes(rows: seq<Item>)
    requires rows != [] && |Codes(rows)| <= 1
    ensures Codes(rows) == {rows[0].statusCode}
    ensures forall r :: r in rows ==> r.statusCode == rows[0].statusCode
  {
    PartialExact(rows);
    assert rows[0] in rows;
  }

  /** The status of a whole checkout, told by its rows. */
  lemma ConversionExact(rows: seq<Item>)
    requires rows != []
    ensures ConversionOf(rows).PartiallyValidated? <==>
      exists r, s :: r in rows && s in rows && r.statusCode != s.statusCode
    ensures ConversionOf(rows).Rejected? <==> AllOf(rows, "cancelled")
    ensures ConversionOf(rows).Validated? <==> AllOf(rows, "completed") || AllOf(rows, "paid")
  {
    PartialExact(rows);
    assert rows[0] in rows;
    if |Codes(rows)| <= 1 { UniformCodes(rows); }
  }

  /** The row a successful publish leaves for the group. */
  function RowAfter(db: Db, db': Db, sync: Sync, g: Group): (r: Option<Checkout>) {
    var at := RowAt(db, sync, g);
    var here := if at.Some? then at.value else |db.checkouts|;
    if here < |db'.checkouts| then Some(db'.checkouts[here]) else None
  }

  lemma UnpaidWritten(env: Env, db: Db, sync: Sync, g: Group)
    requires db.credential.Some? && !Unchanged(env, db, sync, g) && !WasPaid(db, sync, g)
    ensures PublishOne(env, db, sync, g).Ok?
    ensures var at := RowAt(db, sync, g); var previous := if at.Some? then Some(db.checkouts[at.value]) else None;
      var f := FindingOf(env, db, sync, g, previous);
      && RowAfter(db, PublishOne(env, db, sync, g).value, sync, g).Some?
      && RowAfter(db, PublishOne(env, db, sync, g).value, sync, g).value.commission ==
           PublishedCommission(env, db.policy, previous, f, g.rows)
      && PublishOne(env, db, sync, g).value.policy ==
           (if f.owner.user.Some? then Some(PolicyOr(db.policy)) else db.policy)
  {
    hide FindingOf, PublishedCommission, DigestOf, Close, Raise, PublishPaid;
  }

  /** The published row, given what was found. */
  lemma RowWritten(env: Env, db: Db, sync: Sync, g: Group)
    requires db.credential.Some? && !Unchanged(env, db, sync, g) && PublishOne(env, db, sync, g).Ok?
    ensures var at := RowAt(db, sync, g); var previous := if at.Some? then Some(db.checkouts[at.value]) else None;
      var db' := PublishOne(env, db, sync, g).value; var f := FindingOf(env, db, sync, g, previous);
      && RowAfter(db, db', sync, g).Some?
      && RowAfter(db, db', sync, g).value ==
           PublishedCheckout(env, sync, g, previous, f, RowAfter(db, db', sync, g).value.commission)
      && |db'.checkouts| == |db.checkouts| + (if at.Some? then 0 else 1)
      && (forall j :: 0 <= j < |db.checkouts| && at != Some(j) ==> db'.checkouts[j] == db.checkouts[j])
  {
    hide FindingOf, PublishedCommission, ReversedCommission, DigestOf, Close, Raise, Reverse;
  }

  /**
   * The row of a published snapshot, paid or not. It holds the reported rows, their digest and amount, and
   * counts one more revision; its status is told by the rows, and it needs a review exactly when there are
   * grounds for an issue. No other row changes.
   */
  lemma PublishedRow(env: Env, db: Db, sync: Sync, g: Group)
    requires db.credential.Some? && g.rows != [] && !Unchanged(env, db, sync, g) && PublishOne(env, db, sync, g).Ok?
    ensures var at := RowAt(db, sync, g); var db' := PublishOne(env, db, sync, g).value;
      && |db'.checkouts| == |db.checkouts| + (if at.Some? then 0 else 1)
      && (forall j :: 0 <= j < |db.checkouts| && at != Some(j) ==> db'.checkouts[j] == db.checkouts[j])
    ensures RowAfter(db, PublishOne(env, db, sync, g).value, sync, g).Some?
    ensures var at := RowAt(db, sync, g); var row := RowAfter(db, PublishOne(env, db, sync, g).value, sync, g).value;
      && row.provider == "ADDLIVETAG:" + sync.accountId && row.checkoutId == g.checkoutId
      && row.accountId == (if at.Some? then db.checkouts[at.value].accountId else sync.accountId)
      && row.revision == (if at.Some? then db.checkouts[at.value].revision + 1 else 1)
      && row.payload == g.rows && row.sourceHash == DigestOf(env.json, g.rows)
      && row.netRaw == Amount(g.rows)
      && (row.rawStatus.PartiallyValidated? <==>
            exists r, s :: r in g.rows && s in g.rows && r.statusCode != s.statusCode)
      && (row.rawStatus.Rejected? <==> AllOf(g.rows, "cancelled"))
      && (row.rawStatus.Validated? <==> AllOf(g.rows, "completed") || AllOf(g.rows, "paid"))
      && row.conversionState ==
           (if exists t :: Grounds(env, db, sync, g, t) then Conversion.ManualReview else row.rawStatus)
  {
    hide PublishOne, FindingOf, RowAfter, Grounds, RowAt, DigestOf, Unchanged, ConversionOf, AllOf;
    var at := RowAt(db, sync, g);
    var previous := if at.Some? then Some(db.checkouts[at.value]) else None;
    RowWritten(env, db, sync, g);
    FindingMeans(env, db, sync, g, previous);
    SomeGrounds(env, db, sync, g);
    ConversionExact(g.rows);
  }

  /**
   * The state of a published commission that was never paid. It is under manual review exactly when there
   * are grounds for an issue. Otherwise it is validated exactly when its rows are void or paid, at least
   * one of them paid; rejected exactly when all rows are cancelled or all labels are rejected; and
   * estimated in between. It is worth the sum of its rows, and keeps its user and link, or takes those its
   * rows name.
   */
  lemma PublishedState(env: Env, db: Db, sync: Sync, g: Group)
    requires db.credential.Some? && g.rows != [] && !Unchanged(env, db, sync, g) && !WasPaid(db, sync, g)
    ensures PublishOne(env, db, sync, g).Ok?
    ensures RowAfter(db, PublishOne(env, db, sync, g).value, sync, g).Some?
    ensures var c := RowAfter(db, PublishOne(env, db, sync, g).value, sync, g).value.commission;
      var link := Attribute(db.links, g.rows); var before := Before(db, sync, g);
      && (c.state.ManualReview? <==> exists t :: Grounds(env, db, sync, g, t))
      && (!c.state.ManualReview? ==> (c.state.Validated? <==> FullyPaid(env, g.rows)))
      && (!c.state.ManualReview? ==>
            (c.state.Rejected? <==> AllOf(g.rows, "cancelled") || AllRejected(env, g.rows)))
      && (c.state.Validated? || c.state.Rejected? || c.state.Estimated? || c.state.ManualReview?)
      && c.rawAmount == c.estimatedVnd == Amount(g.rows)
      && c.settledVnd == (if before.Some? then before.value.settledVnd else 0)
      && (before.Some? && before.value.user.Some? ==>
            && c.user == before.value.user
            && c.link == (if link.Some? && Some(link.value.userId) == c.user then Some(link.value.id)
                          else before.value.link))
      && (before.None? || before.value.user.None? ==>
            && c.user == (if link.Some? then Some(link.value.userId) else None)
            && c.link == (if link.Some? then Some(link.value.id) else None))
  {
    hide PublishOne, FindingOf, RowAfter, Grounds, NewState, FullyPaid, RowState, AllOf, RowAt, Attribute;
    hide CashbackFor, Unchanged, AllRejected;
    var at := RowAt(db, sync, g);
    var previous := if at.Some? then Some(db.checkouts[at.value]) else None;
    UnpaidWritten(env, db, sync, g);
    FindingMeans(env, db, sync, g, previous);
    SomeGrounds(env, db, sync, g);
    StateExact(env, FindingOf(env, db, sync, g, previous), g.rows);
  }

  /**
   * The cashback of a published commission that was never paid. A commission with a user has one: it
   * splits the amount of the rows by the share it was created with, and a new one by the share the policy
   * sets, or 8000 basis points where no policy was ever stored. Without a user it stays as it was.
   */
  lemma PublishedShare(env: Env, db: Db, sync: Sync, g: Group)
    requires db.credential.Some? && g.rows != [] && !Unchanged(env, db, sync, g) && !WasPaid(db, sync, g)
    ensures PublishOne(env, db, sync, g).Ok?
    ensures RowAfter(db, PublishOne(env, db, sync, g).value, sync, g).Some?
    ensures var c := RowAfter(db, PublishOne(env, db, sync, g).value, sync, g).value.commission;
      var before := Before(db, sync, g); var existing := if before.Some? then before.value.cashback else None;
      && (c.user.None? ==> c.cashback == existing)
      && (c.user.Some? ==>
            && c.cashback.Some?
            && Shares(c.cashback.value,
                      if existing.Some? then existing.value.userBps
                      else if db.policy.Some? then db.policy.value.userBps else 8000, c.estimatedVnd, c.state))
    ensures var c := RowAfter(db, PublishOne(env, db, sync, g).value, sync, g).value.commission;
      PublishOne(env, db, sync, g).value.policy ==
        (if c.user.Some? && db.policy.None? then Some(Policy(8000, 10000)) else db.policy)
  {
    hide PublishOne, FindingOf, RowAfter, NewState, RowAt, CashbackFor, Shares, Unchanged, Attribute;
    var at := RowAt(db, sync, g);
    var previous := if at.Some? then Some(db.checkouts[at.value]) else None;
    UnpaidWritten(env, db, sync, g);
    var f := FindingOf(env, db, sync, g, previous);
    NewStates(env, f, g.rows);
    CashbackShares(PreviousCashback(previous), db.policy, f.amount, NewState(env, f, g.rows));
  }

  lemma NewStates(env: Env, f: Finding, rows: seq<Item>)
    ensures var state := NewState(env, f, rows);
      state.Validated? || state.Rejected? || state.Estimated? || state.ManualReview?
  {
  }

  lemma SomeGrounds(env: Env, db: Db, sync: Sync, g: Group)
    requires db.credential.Some?
    ensures var at := RowAt(db, sync, g); var previous := if at.Some? then Some(db.checkouts[at.value]) else None;
      FindingOf(env, db, sync, g, previous).issues != [] <==> exists t :: Grounds(env, db, sync, g, t)
  {
    hide FindingOf, Grounds, RowAt;
    var at := RowAt(db, sync, g);
    var kinds := FindingOf(env, db, sync, g, if at.Some? then Some(db.checkouts[at.value]) else None).issues;
    forall t ensures t in kinds <==> Grounds(env, db, sync, g, t) { FindingExact(env, db, sync, g, t); }
    if kinds != [] { assert kinds[0] in kinds; }
  }

  /** The state a finding leads to. */
  lemma StateExact(env: Env, f: Finding, rows: seq<Item>)
    requires rows != [] && f.conversion == ConversionOf(rows)
    ensures var state := NewState(env, f, rows);
      && (state.ManualReview? <==> f.issues != [])
      && (f.issues == [] ==> (state.Validated? <==> FullyPaid(env, rows)))
      && (f.issues == [] ==> (state.Rejected? <==> AllOf(rows, "cancelled") || AllRejected(env, rows)))
      && (state.Validated? || state.Rejected? || state.Estimated? || state.ManualReview?)
  {
    hide FullyPaid, PaymentStateOf, MeansPaid, AllOf, PaymentBlockers, ConversionOf, MeansRejected;
    forall r | r in rows ensures RowState(env, r).Rejected? <==> MeansRejected(env, r.commissionStatus) {
      LabelMeans(env, r.commissionStatus);
    }
    ConversionExact(rows);
    PaymentGate(env, rows);
    NotBoth(env, rows);
  }

  lemma FindingMeans(env: Env, db: Db, sync: Sync, g: Group, previous: Option<Checkout>)
    requires db.credential.Some?
    ensures var f := FindingOf(env, db, sync, g, previous); var link := Attribute(db.links, g.rows);
      && f.conversion == ConversionOf(g.rows) && f.amount == Amount(g.rows)
      && f.owner.user == (if previous.Some? && previous.value.commission.user.Some? then previous.value.commission.user
                          else if link.Some? then Some(link.value.userId) else None)
      && f.owner.link == (if previous.Some? && previous.value.commission.user.Some?
                             && (link.None? || previous.value.commission.user != Some(link.value.userId))
                          then previous.value.commission.link
                          else if link.Some? then Some(link.value.id) else None)
  {
    hide Attribute, SnapshotIssues;
  }

  /** Rows that are all cancelled, or all rejected, are not paid. */
  lemma NotBoth(env: Env, rows: seq<Item>)
    ensures AllOf(rows, "cancelled") || AllRejected(env, rows) ==> !FullyPaid(env, rows)
  {
    hide Configured;
  }

  /** The open issues of a checkout after publishing it: one for each ground, for the new snapshot, and no other. */
  lemma PublishRaises(env: Env, db: Db, sync: Sync, g: Group, t: IssueType, hash: Digest)
    requires Core(env, db) && db.credential.Some? && WellFormedAccount(sync.accountId) && g.rows != []
    requires !Unchanged(env, db, sync, g)
    ensures PublishOne(env, db, sync, g).Ok?
    ensures var issue := Issue(ProviderScope(sync.accountId), g.checkoutId, t, hash, true);
      issue in PublishOne(env, db, sync, g).value.issues <==>
        hash == DigestOf(env.json, g.rows) && Grounds(env, db, sync, g, t)
  {
    hide Core, Grounds, DigestOf, FindingOf, PublishOne;
    PublishOneKeepsCore(env, db, sync, g);
    IssuesWritten(env, db, sync, g);
    FindingExact(env, db, sync, g, t);
    NothingKept(env, db, sync, g);
    var at := RowAt(db, sync, g);
    var f := FindingOf(env, db, sync, g, if at.Some? then Some(db.checkouts[at.value]) else None);
    OnlyRaised(db.issues, ProviderScope(sync.accountId), g.checkoutId, f.issues, DigestOf(env.json, g.rows), t, hash);
  }

  /** Raising kinds that are not open yet appends one issue for each. */
  lemma {:induction false} RaiseFresh(issues: seq<Issue>, provider: string, checkoutId: string,
        kinds: seq<IssueType>, hash: Digest)
    requires Distinct(kinds)
    requires forall t :: t in kinds ==> Issue(provider, checkoutId, t, hash, true) !in issues
    ensures var r := Raise(issues, provider, checkoutId, kinds, hash);
      && |r| == |issues| + |kinds| && r[..|issues|] == issues
      && (forall k :: 0 <= k < |kinds| ==> r[|issues| + k] == Issue(provider, checkoutId, kinds[k], hash, true))
    decreases |kinds|
  {
    if kinds != [] {
      var n := |kinds| - 1;
      forall t | t in kinds[..n] ensures t in kinds {}
      RaiseFresh(issues, provider, checkoutId, kinds[..n], hash);
      var before := Raise(issues, provider, checkoutId, kinds[..n], hash);
      assert Issue(provider, checkoutId, kinds[n], hash, true) !in before by {
        forall k | 0 <= k < |before| ensures before[k] != Issue(provider, checkoutId, kinds[n], hash, true) {
          if k < |issues| { assert before[k] == before[..|issues|][k]; }
          else { assert before[|issues| + (k - |issues|)].kind == kinds[..n][k - |issues|]; }
        }
      }
    }
  }

  lemma DistinctFindings(env: Env, db: Db, sync: Sync, g: Group, previous: Option<Checkout>)
    requires db.credential.Some?
    ensures Distinct(FindingOf(env, db, sync, g, previous).issues)
  {
    hide Inspect, Attribute, KnownElsewhere, ForeignAffiliate, OwnerOf, Distinct;
  }

  /**
   * The open issues of the checkout are closed, every other issue stays as it is, and the new issues are
   * open, raised for the digest, and of different kinds.
   */
  ghost predicate Replaced(a: seq<Issue>, b: seq<Issue>, provider: string, checkoutId: string, hash: Digest) {
    && |b| >= |a|
    && (forall k :: 0 <= k < |a| && a[k].provider == provider && a[k].checkoutId == checkoutId ==>
          b[k] == a[k].(open := false))
    && (forall k :: 0 <= k < |a| && !(a[k].provider == provider && a[k].checkoutId == checkoutId) ==> b[k] == a[k])
    && (forall k :: |a| <= k < |b| ==> b[k] == Issue(provider, checkoutId, b[k].kind, hash, true))
    && (forall j, k :: |a| <= j < k < |b| ==> b[j].kind != b[k].kind)
  }

  lemma RaiseReplaces(issues: seq<Issue>, provider: string, checkoutId: string, kinds: seq<IssueType>, hash: Digest)
    requires NoneKept(issues, provider, checkoutId, Some(hash)) && Distinct(kinds)
    ensures Replaced(issues, Raise(Close(issues, provider, checkoutId, Some(hash)), provider, checkoutId, kinds, hash),
                     provider, checkoutId, hash)
  {
    hide Raise;
    var closed := Close(issues, provider, checkoutId, Some(hash));
    RaiseFresh(closed, provider, checkoutId, kinds, hash);
    var raised := Raise(closed, provider, checkoutId, kinds, hash);
    assert forall k :: 0 <= k < |closed| ==> raised[k] == raised[..|closed|][k] == closed[k];
    forall k | |closed| <= k < |raised|
      ensures raised[k] == Issue(provider, checkoutId, kinds[k - |closed|], hash, true)
    {
      assert raised[|closed| + (k - |closed|)] == raised[k];
    }
    hide Close;
    assert forall k :: 0 <= k < |closed| ==> raised[k] == CloseOne(issues[k], provider, checkoutId, Some(hash));
  }

  /** Publishing a checkout replaces its open issues and leaves all others as they are. */
  lemma PublishReplacesIssues(env: Env, db: Db, sync: Sync, g: Group)
    requires Core(env, db) && db.credential.Some? && WellFormedAccount(sync.accountId) && g.rows != []
    requires !Unchanged(env, db, sync, g)
    ensures PublishOne(env, db, sync, g).Ok?
    ensures Replaced(db.issues, PublishOne(env, db, sync, g).value.issues, "ADDLIVETAG:" + sync.accountId, g.checkoutId,
                     DigestOf(env.json, g.rows))
  {
    hide Core, DigestOf, FindingOf, PublishOne, Replaced, NoneKept, Distinct, Raise, Close, Unchanged, RowAt;
    PublishOneKeepsCore(env, db, sync, g);
    IssuesWritten(env, db, sync, g);
    NothingKept(env, db, sync, g);
    var at := RowAt(db, sync, g);
    var previous := if at.Some? then Some(db.checkouts[at.value]) else None;
    DistinctFindings(env, db, sync, g, previous);
    RaiseReplaces(db.issues, ProviderScope(sync.accountId), g.checkoutId,
                  FindingOf(env, db, sync, g, previous).issues, DigestOf(env.json, g.rows));
  }

  lemma IssuesWritten(env: Env, db: Db, sync: Sync, g: Group)
    requires db.credential.Some? && !Unchanged(env, db, sync, g) && PublishOne(env, db, sync, g).Ok?
    ensures var at := RowAt(db, sync, g);
      var provider, hash := ProviderScope(sync.accountId), DigestOf(env.json, g.rows);
      var f := FindingOf(env, db, sync, g, if at.Some? then Some(db.checkouts[at.value]) else None);
      PublishOne(env, db, sync, g).value.issues ==
        Raise(Close(db.issues, provider, g.checkoutId, Some(hash)), provider, g.checkoutId, f.issues, hash)
  {
    hide FindingOf, PublishedCommission, ReversedCommission, DigestOf, Close, Raise, Reverse;
  }

  lemma NothingKept(env: Env, db: Db, sync: Sync, g: Group)
    requires Core(env, db) && !Unchanged(env, db, sync, g)
    ensures NoneKept(db.issues, ProviderScope(sync.accountId), g.checkoutId, Some(DigestOf(env.json, g.rows)))
  {
    hide RowsOk, LedgerOk, BooksOk, ReviewIffOpen, OnePaid, DigestOf;
    forall k | 0 <= k < |db.issues| && db.issues[k].open
      && IssueOf(db.issues[k], ProviderScope(sync.accountId), g.checkoutId)
      ensures db.issues[k].sourceHash != DigestOf(env.json, g.rows)
    {
      assert Current(db.checkouts, db.issues[k]);
      var i :| 0 <= i < |db.checkouts| && SameCheckout(db.checkouts[i], ProviderScope(sync.accountId), g.checkoutId)
        && db.checkouts[i].sourceHash == db.issues[k].sourceHash;
      OnlyOne(db.checkouts, i, RowAt(db, sync, g).value);
    }
  }

  lemma OnlyRaised(issues: seq<Issue>, provider: string, checkoutId: string, kinds: seq<IssueType>, now: Digest,
        t: IssueType, hash: Digest)
    requires NoneKept(issues, provider, checkoutId, Some(now))
    ensures var closed := Close(issues, provider, checkoutId, Some(now));
      Issue(provider, checkoutId, t, hash, true) in Raise(closed, provider, checkoutId, kinds, now)
      <==> hash == now && t in kinds
  {
    var closed := Close(issues, provider, checkoutId, Some(now));
    var raised := Raise(closed, provider, checkoutId, kinds, now);
    var issue := Issue(provider, checkoutId, t, hash, true);
    CloseClosesOnly(issues, provider, checkoutId, Some(now));
    RaiseAppends(closed, provider, checkoutId, kinds, now);
    hide Raise, Close;
    forall k | 0 <= k < |closed| ensures raised[k] == closed[k] {
      assert raised[..|closed|][k] == closed[k];
    }
  }

  /** When the finding of a paid checkout calls for a reversal. */
  lemma ReversalExact(env: Env, db: Db, sync: Sync, g: Group)
    requires db.credential.Some? && g.rows != [] && WasPaid(db, sync, g)
    ensures var previous := db.checkouts[RowAt(db, sync, g).value];
      MustReverse(previous, FindingOf(env, db, sync, g, Some(previous))) <==>
        && previous.commission.state.Paid? && AllOf(g.rows, "cancelled")
        && forall t :: Grounds(env, db, sync, g, t) ==> t.PaidCommissionChanged?
  {
    hide FindingOf, Grounds, AllOf, RowAt;
    var previous := db.checkouts[RowAt(db, sync, g).value];
    var f := FindingOf(env, db, sync, g, Some(previous));
    FindingMeans(env, db, sync, g, Some(previous));
    ConversionExact(g.rows);
    forall t ensures t in f.issues <==> Grounds(env, db, sync, g, t) { FindingExact(env, db, sync, g, t); }
  }

  /**
   * A paid commission is reversed exactly when its checkout is reported as wholly cancelled and nothing
   * else is wrong; otherwise publishing leaves a paid commission as it is.
   */
  lemma PublishedPaid(env: Env, db: Db, sync: Sync, g: Group)
    requires Core(env, db) && db.credential.Some? && WellFormedAccount(sync.accountId) && g.rows != []
    requires !Unchanged(env, db, sync, g) && WasPaid(db, sync, g)
    ensures PublishOne(env, db, sync, g).Ok?
    ensures RowAfter(db, PublishOne(env, db, sync, g).value, sync, g).Some?
    ensures var c := RowAfter(db, PublishOne(env, db, sync, g).value, sync, g).value.commission;
      var before := Before(db, sync, g).value;
      var reversed := before.state.Paid? && AllOf(g.rows, "cancelled")
        && forall t :: Grounds(env, db, sync, g, t) ==> t.PaidCommissionChanged?;
      && (!reversed ==> c == before)
      && (reversed ==> before.cashback.Some?)
      && (reversed ==> c == before.(state := CommissionState.Reversed,
                                    cashback := Some(before.cashback.value.(state := CashbackReversed))))
  {
    PublishOneKeepsCore(env, db, sync, g);
    PaidWritten(env, db, sync, g);
    PaidHasCashback(env, db, RowAt(db, sync, g).value);
    hide Core, PublishOne, FindingOf, RowAfter, Grounds, AllOf, RowAt, Unchanged, MustReverse;
    ReversalExact(env, db, sync, g);
  }

  lemma PaidHasCashback(env: Env, db: Db, i: nat)
    requires Core(env, db) && i < |db.checkouts| && EverPaid(db.checkouts[i].commission)
    ensures db.checkouts[i].commission.cashback.Some?
  {
    hide SourceOk, PaymentBlockers, LedgerOk, BooksOk, ReviewIffOpen, OpenIssuesCurrent, OnePaid, UniqueCheckouts;
    assert RowOk(env, db.checkouts[i]);
  }

  lemma PaidWritten(env: Env, db: Db, sync: Sync, g: Group)
    requires db.credential.Some? && !Unchanged(env, db, sync, g) && WasPaid(db, sync, g)
    requires PublishOne(env, db, sync, g).Ok?
    ensures var previous := db.checkouts[RowAt(db, sync, g).value];
      var f := FindingOf(env, db, sync, g, Some(previous));
      && RowAfter(db, PublishOne(env, db, sync, g).value, sync, g).Some?
      && RowAfter(db, PublishOne(env, db, sync, g).value, sync, g).value.commission ==
           if MustReverse(previous, f) then ReversedCommission(previous.commission) else previous.commission
  {
    hide FindingOf, ReversedCommission, DigestOf, Close, Raise, PublishUnpaid, Reverse, MustReverse;
  }
}
