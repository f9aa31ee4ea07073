/** What a reviewer can approve or exclude, what that does, and why a review is refused. */
module ReviewTheorems {
  import opened Prelude
  import opened Contract
  import opened Digests
  import opened Payment
  import opened Inspection
  import opened Attribution
  import opened Approval
  import opened Wallets
  import opened Tables
  import opened Engine
  import opened Invariants
  import opened Rows
  import opened Issues

  /** `l` is the link with that id; ids are unique, so the first one found is the only one. */
  ghost predicate LinkNamed(links: seq<Link>, id: string, l: Link) {
    exists k :: 0 <= k < |links| && links[k] == l && l.id == id && forall j :: 0 <= j < k ==> links[j].id != id
  }

  lemma {:induction false} FindLinkExact(links: seq<Link>, id: string, l: Link)
    ensures FindLinkById(links, id) == Some(l) <==> LinkNamed(links, id, l)
    decreases |links|
  {
    if links != [] {
      FindLinkExact(links[1..], id, l);
      if links[0].id == id {
        assert LinkNamed(links, id, links[0]);
      } else if LinkNamed(links[1..], id, l) {
        var k :| 0 <= k < |links[1..]| && links[1..][k] == l && forall j :: 0 <= j < k ==> links[1..][j].id != id;
        assert links[k + 1] == l && forall j :: 0 <= j < k + 1 ==> links[j].id != id;
      }
    }
  }

  /** No other provider account claims the checkout. */
  ghost predicate Unclaimed(checkouts: seq<Checkout>, c: Checkout) {
    forall d :: d in checkouts && d.checkoutId == c.checkoutId && d.provider != c.provider ==>
      d.commission.state.Rejected?
  }

  /** The link the reviewer names is live and fits the user stored for the commission. */
  ghost predicate Credits(db: Db, c: Commission, input: Review, l: Link)
    requires input.linkId.Some?
  {
    && LinkNamed(db.links, input.linkId.value, l) && !l.deleted
    && (c.user.Some? ==> c.user == Some(l.userId))
  }

  /** What a reviewer can approve, and how. */
  ghost predicate Approves(env: Env, db: Db, checkout: Checkout, input: Review) {
    && db.credential.Some? && db.credential.value.verified && db.credential.value.active
    && db.credential.value.accountId == checkout.accountId
    && Acceptable(env, db.credential.value.expectedAffiliate, checkout.payload)
    && Unclaimed(db.checkouts, checkout)
    && input.linkId.Some? && input.acceptedVnd.Some?
    && (exists l :: Credits(db, checkout.commission, input, l))
    && input.acceptedVnd.value <= Amount(checkout.payload)
  }

  lemma UnclaimedExact(checkouts: seq<Checkout>, c: Checkout)
    ensures Unclaimed(checkouts, c) <==> !ClaimedElsewhere(checkouts, c.provider, c.checkoutId)
  {
  }

  ghost predicate NobodyCredited(db: Db, c: Commission, input: Review)
    requires input.linkId.Some?
  {
    forall l :: !Credits(db, c, input, l)
  }

  lemma NobodyCreditedExact(db: Db, c: Commission, input: Review)
    requires input.linkId.Some?
    ensures var link := FindLinkById(db.links, input.linkId.value);
      NobodyCredited(db, c, input) <==>
        link.None? || link.value.deleted || (c.user.Some? && c.user != Some(link.value.userId))
  {
    hide LinkNamed;
    var id := input.linkId.value;
    forall l ensures LinkNamed(db.links, id, l) <==> FindLinkById(db.links, id) == Some(l) {
      FindLinkExact(db.links, id, l);
    }
    var link := FindLinkById(db.links, input.linkId.value);
    if link.Some? {
      assert LinkNamed(db.links, input.linkId.value, link.value);
      assert !link.value.deleted && (c.user.Some? ==> c.user == Some(link.value.userId)) ==>
        Credits(db, c, input, link.value);
    }
  }

  lemma ApprovalChecks(env: Env, db: Db, checkout: Checkout, input: Review)
    requires RowOk(env, checkout)
    ensures ApprovedCommission(env, db, checkout, input).Ok? <==>
      && Approves(env, db, checkout, input)
      && RowChecks(env, db.credential.value.expectedAffiliate, checkout.payload)
  {
    hide PaymentBlockers, Approvable, ClaimedElsewhere, CashbackFor, DigestOf, Coherent, RowState, Acceptable, Credits;
    hide Unclaimed, Amount;
    UnclaimedExact(db.checkouts, checkout);
    if input.linkId.Some? { NobodyCreditedExact(db, checkout.commission, input); }
    if db.credential.Some? {
      RowChecksExact(env, db.credential.value.expectedAffiliate, checkout.payload);
    }
  }

  /** What an approval of acceptable rows leads to. */
  lemma ApprovalMeans(env: Env, db: Db, checkout: Checkout, input: Review) returns (l: Link)
    requires RowOk(env, checkout) && ApprovedCommission(env, db, checkout, input).Ok?
    ensures input.linkId.Some? && Credits(db, checkout.commission, input, l)
    ensures var c := ApprovedCommission(env, db, checkout, input).value; var before := checkout.commission;
      && c.user == Some(l.userId) && c.link == input.linkId
      && (c.state.Validated? <==> FullyPaid(env, checkout.payload))
      && (!c.state.Validated? ==> c.state.Estimated?)
      && Some(c.estimatedVnd) == input.acceptedVnd
      && c.rawAmount == before.rawAmount && c.settledVnd == before.settledVnd
      && c.cashback.Some?
      && Shares(c.cashback.value,
                if before.cashback.Some? then before.cashback.value.userBps
                else if db.policy.Some? then db.policy.value.userBps else 8000, c.estimatedVnd, c.state)
  {
    hide PaymentBlockers, FullyPaid, Approvable, ClaimedElsewhere, CashbackFor, RowOk, LinkNamed, Shares;
    PaymentGate(env, checkout.payload);
    l := FindLinkById(db.links, input.linkId.value).value;
    FindLinkExact(db.links, input.linkId.value, l);
    var c := ApprovedCommission(env, db, checkout, input).value;
    CashbackShares(checkout.commission.cashback, db.policy, input.acceptedVnd.value, c.state);
  }

  /**
   * When an approval is accepted, and what it does. It needs an active verified credential of the account,
   * a live link of the id named that fits the stored user, at most the reported amount, no claim by another
   * provider account, and rows that are all this affiliate's and void, paid or awaited, at least one
   * completed. The commission and its cashback then go to the user of that link. An approval never turns
   * pending provider money into payable money: the commission becomes validated exactly when its rows are
   * void or paid, at least one of them paid, and estimated otherwise.
   */
  lemma ApproveExact(env: Env, db: Db, checkout: Checkout, input: Review)
    requires RowOk(env, checkout)
    ensures ApprovedCommission(env, db, checkout, input).Ok? <==> Approves(env, db, checkout, input)
    ensures ApprovedCommission(env, db, checkout, input).Ok? ==>
      var c := ApprovedCommission(env, db, checkout, input).value; var before := checkout.commission;
      && input.linkId.Some? && c.link == input.linkId
      && (exists l :: Credits(db, before, input, l) && c.user == Some(l.userId))
      && (c.state.Validated? <==> FullyPaid(env, checkout.payload))
      && (!c.state.Validated? ==> c.state.Estimated?)
      && Some(c.estimatedVnd) == input.acceptedVnd
      && c.rawAmount == before.rawAmount && c.settledVnd == before.settledVnd
      && c.cashback.Some?
      && Shares(c.cashback.value,
                if before.cashback.Some? then before.cashback.value.userBps
                else if db.policy.Some? then db.policy.value.userBps else 8000, c.estimatedVnd, c.state)
  {
    hide ApprovedCommission, RowOk, FullyPaid, Acceptable, RowChecks, Credits, Shares;
    ApprovalChecks(env, db, checkout, input);
    if db.credential.Some? {
      RowChecksExact(env, db.credential.value.expectedAffiliate, checkout.payload);
    }
    if ApprovedCommission(env, db, checkout, input).Ok? { var l := ApprovalMeans(env, db, checkout, input); }
  }

  /** All rows report one and the same status, and it earns nothing. */
  ghost predicate EarnsNothing(rows: seq<Item>) {
    forall r :: r in rows ==> r.statusCode !in ["completed", "paid"] && r.statusCode == rows[0].statusCode
  }

  /** A row is another affiliate's, or neither completed nor cancelled. */
  ghost predicate OtherRows(rows: seq<Item>, affiliate: string) {
    exists r :: r in rows && (r.affiliate != affiliate || r.statusCode !in ["completed", "cancelled"])
  }

  ghost predicate SomeRejected(env: Env, rows: seq<Item>) {
    exists r :: r in rows && r.statusCode == "completed" && MeansRejected(env, r.commissionStatus)
  }

  ghost predicate SomeUnverified(env: Env, rows: seq<Item>) {
    exists r :: r in rows && !Void(r) && !Awaited(env, r)
  }

  /** Why an approval is refused, told by the rows and the tables; the first reason met decides. */
  ghost function WhyNotApproved(env: Env, db: Db, checkout: Checkout, input: Review): Error {
    var rows := checkout.payload;
    if db.credential.None? then NotFound
    else if !db.credential.value.verified || !db.credential.value.active
            || db.credential.value.accountId != checkout.accountId
    then VerifyAccountAndVndFirst
    else if EarnsNothing(rows) then ProviderStatusNotEligible
    else if OtherRows(rows, db.credential.value.expectedAffiliate) then ProviderIdentityOrStatusMismatch
    else if !Unclaimed(db.checkouts, checkout) then DuplicateCommissionMustBeExcludedFirst
    else if input.linkId.None? || input.acceptedVnd.None? then AttributionAndAmountRequired
    else if forall l :: l in db.links ==> l.id != input.linkId.value then NotFound
    else if NobodyCredited(db, checkout.commission, input) then AttributionConflict
    else if SomeRejected(env, rows) then Error.ProviderCommissionRejected
    else if SomeUnverified(env, rows) then ProviderCommissionNotVerified
    else AcceptedAmountExceedsReported
  }

  lemma {:induction false} FindLinkNone(links: seq<Link>, id: string)
    ensures FindLinkById(links, id).None? <==> forall l :: l in links ==> l.id != id
    decreases |links|
  {
    if links != [] {
      FindLinkNone(links[1..], id);
      assert forall l :: l in links <==> l == links[0] || l in links[1..];
    }
  }

  lemma EarnsNothingExact(rows: seq<Item>)
    requires rows != []
    ensures !ConversionOf(rows).Validated? && !ConversionOf(rows).PartiallyValidated? <==> EarnsNothing(rows)
  {
    PartialExact(rows);
    assert rows[0] in rows;
  }

  lemma OtherRowsExact(rows: seq<Item>, affiliate: string)
    ensures OtherRows(rows, affiliate) <==> !Approvable(rows, affiliate)
  {
  }

  lemma SomeRejectedExact(env: Env, rows: seq<Item>)
    ensures SomeRejected(env, rows) <==> exists r :: r in rows && CodeOf(r).Completed? && RowState(env, r).Rejected?
  {
    hide PaymentStateOf, MeansRejected;
    forall r | r in rows ensures RowState(env, r).Rejected? <==> MeansRejected(env, r.commissionStatus) {
      LabelMeans(env, r.commissionStatus);
    }
  }

  lemma SomeUnverifiedExact(env: Env, rows: seq<Item>, affiliate: string)
    requires Approvable(rows, affiliate) && (ConversionOf(rows).Validated? || ConversionOf(rows).PartiallyValidated?)
    ensures SomeUnverified(env, rows) <==>
      exists b :: b in PaymentBlockers(env, rows) && b != CommissionNot(PaymentState.Pending)
  {
    hide PaymentBlockers, ConversionOf, Awaited, Void;
    ConversionCompleted(rows, affiliate);
    PendingOnly(env, rows, affiliate);
  }

  /** A refused approval throws the error of the first reason. */
  lemma ApprovalRefused(env: Env, db: Db, checkout: Checkout, input: Review)
    requires RowOk(env, checkout) && ApprovedCommission(env, db, checkout, input).Err?
    ensures ApprovedCommission(env, db, checkout, input).error == WhyNotApproved(env, db, checkout, input)
  {
    hide PaymentBlockers, RowState, ClaimedElsewhere, Unclaimed, CashbackFor, DigestOf, Coherent, ConversionOf;
    hide EarnsNothing, OtherRows, SomeRejected, SomeUnverified, NobodyCredited, Approvable, FindLinkById;
    var rows := checkout.payload;
    EarnsNothingExact(rows);
    UnclaimedExact(db.checkouts, checkout);
    SomeRejectedExact(env, rows);
    if input.linkId.Some? {
      FindLinkNone(db.links, input.linkId.value);
      NobodyCreditedExact(db, checkout.commission, input);
    }
    if db.credential.Some? {
      var affiliate := db.credential.value.expectedAffiliate;
      OtherRowsExact(rows, affiliate);
      if Approvable(rows, affiliate) && !EarnsNothing(rows) { SomeUnverifiedExact(env, rows, affiliate); }
    }
  }

  /**
   * A checkout with a row of the status `paid` can never be approved, whatever is asked, although such a
   * row under a paid label satisfies the payment gate.
   */
  lemma PaidOutNeverApproved(env: Env, db: Db, checkout: Checkout, input: Review, r: Item)
    requires RowOk(env, checkout) && r in checkout.payload && r.statusCode == "paid"
    ensures ApprovedCommission(env, db, checkout, input).Err?
    ensures MeansPaid(env, r.commissionStatus) ==> PaymentBlockers(env, [r]) == []
  {
    hide ApprovedCommission, RowOk, PaymentBlockers, FullyPaid, MeansPaid, Credits, Shares;
    ApproveExact(env, db, checkout, input);
    PaymentGate(env, [r]);
    if db.credential.Some? {
      PaidOutNotAcceptable(env, db.credential.value.expectedAffiliate, checkout.payload, r);
    } else {
      PaidOutNotAcceptable(env, "", checkout.payload, r);
    }
  }

  /** The checkout an issue was raised for. */
  function ReviewedRow(db: Db, issueId: nat): (i: Option<nat>)
    ensures i.Some? ==> i.value < |db.checkouts|
  {
    if issueId < |db.issues| then FindCheckout(db.checkouts, db.issues[issueId].provider, db.issues[issueId].checkoutId)
    else None
  }

  /** What a review asks for. */
  ghost predicate Reviewable(env: Env, db: Db, issueId: nat, input: Review) {
    && issueId < |db.issues| && db.issues[issueId].open && "ADDLIVETAG:" <= db.issues[issueId].provider
    && exists c :: c in db.checkouts && ReviewableRow(env, db, db.issues[issueId], c, input)
  }

  /** The checkout is the issue's, unchanged since the issue was raised and since the reviewer saw it, and unpaid. */
  ghost predicate ReviewableRow(env: Env, db: Db, issue: Issue, c: Checkout, input: Review) {
    && c.provider == issue.provider && c.checkoutId == issue.checkoutId
    && c.revision == input.revision && c.sourceHash == issue.sourceHash
    && !c.commission.state.Paid? && !c.commission.state.Reversed?
    && (input.action.Approve? ==> Approves(env, db, c, input))
  }

  /** Checkouts are unique, so the row that is found is the only one that can be reviewed. */
  lemma OnlyReviewable(env: Env, db: Db, issue: Issue, input: Review)
    requires UniqueCheckouts(db.checkouts)
    ensures var at := FindCheckout(db.checkouts, issue.provider, issue.checkoutId);
      (exists c :: c in db.checkouts && ReviewableRow(env, db, issue, c, input)) <==>
        at.Some? && ReviewableRow(env, db, issue, db.checkouts[at.value], input)
  {
    hide Approves;
    var at := FindCheckout(db.checkouts, issue.provider, issue.checkoutId);
    if at.Some? { assert db.checkouts[at.value] in db.checkouts; }
    forall c | c in db.checkouts && ReviewableRow(env, db, issue, c, input)
      ensures at.Some? && c == db.checkouts[at.value]
    {
      var i :| 0 <= i < |db.checkouts| && db.checkouts[i] == c;
      OnlyOne(db.checkouts, i, at.value);
    }
  }

  /** When a review is accepted, and the error of one that is not. */
  lemma ReviewAccepted(env: Env, db: Db, issueId: nat, input: Review)
    requires Core(env, db)
    ensures ReviewIssue(env, db, issueId, input).Ok? <==> Reviewable(env, db, issueId, input)
    ensures ReviewIssue(env, db, issueId, input).Err? ==>
      var error := ReviewIssue(env, db, issueId, input).error; var at := ReviewedRow(db, issueId);
      if issueId >= |db.issues| || !("ADDLIVETAG:" <= db.issues[issueId].provider) then error == IssueNotFound
      else if at.None? then error == NotFound
      else
        var c := db.checkouts[at.value];
        if c.revision != input.revision || c.sourceHash != db.issues[issueId].sourceHash
        then error == SourceChangedResyncRequired
        else if !db.issues[issueId].open then error == IssueAlreadyResolved
        else if c.commission.state.Paid? || c.commission.state.Reversed? then error == UseAuditedWalletAdjustment
        else input.action.Approve? && error == WhyNotApproved(env, db, c, input)
  {
    hide RowOk, LedgerOk, BooksOk, ReviewIffOpen, OpenIssuesCurrent, OnePaid, ApprovedCommission, Approves, Excluded;
    hide Close, Shares, Credits, FullyPaid, WhyNotApproved;
    if issueId < |db.issues| {
      var issue := db.issues[issueId];
      var at := FindCheckout(db.checkouts, issue.provider, issue.checkoutId);
      OnlyReviewable(env, db, issue, input);
      if at.Some? {
        assert RowOk(env, db.checkouts[at.value]);
        ApproveExact(env, db, db.checkouts[at.value], input);
        if ApprovedCommission(env, db, db.checkouts[at.value], input).Err? {
          ApprovalRefused(env, db, db.checkouts[at.value], input);
        }
      }
    }
  }

  /**
   * A review settles its checkout and touches no other: no issue of it stays open, no other issue, wallet,
   * batch, link or credential changes, and only an approval may store the default policy.
   */
  lemma ReviewSettles(env: Env, db: Db, issueId: nat, input: Review)
    requires Core(env, db) && ReviewIssue(env, db, issueId, input).Ok?
    ensures ReviewedRow(db, issueId).Some?
    ensures var i := ReviewedRow(db, issueId).value; var row := db.checkouts[i];
      var db' := ReviewIssue(env, db, issueId, input).value;
      && |db'.checkouts| == |db.checkouts| && |db'.issues| == |db.issues|
      && (forall j :: 0 <= j < |db.checkouts| && j != i ==> db'.checkouts[j] == db.checkouts[j])
      && (forall k :: 0 <= k < |db.issues| ==>
            db'.issues[k] == db.issues[k] ||
            (db.issues[k].provider == row.provider && db.issues[k].checkoutId == row.checkoutId
             && db'.issues[k] == db.issues[k].(open := false)))
      && (forall k | 0 <= k < |db.issues| ::
            db.issues[k].provider == row.provider && db.issues[k].checkoutId == row.checkoutId ==> !db'.issues[k].open)
    ensures var db' := ReviewIssue(env, db, issueId, input).value;
      && db'.accounts == db.accounts && db'.batches == db.batches && db'.withdrawals == db.withdrawals
      && db'.links == db.links && db'.credential == db.credential
      && db'.policy == (if input.action.Approve? && db.policy.None? then Some(Policy(8000, 10000)) else db.policy)
  {
    hide RowOk, LedgerOk, BooksOk, ReviewIffOpen, OpenIssuesCurrent, OnePaid, ApprovedCommission, PaymentBlockers;
    hide FullyPaid;
  }

  /**
   * What a review does to its checkout: the revision grows by one, an exclusion rejects the commission and
   * changes nothing else of it, and an approval hands it to the user of the link that was named, for the
   * accepted amount, and leaves its state to the payment gate.
   */
  lemma ReviewExact(env: Env, db: Db, issueId: nat, input: Review)
    requires Core(env, db) && ReviewIssue(env, db, issueId, input).Ok?
    ensures ReviewedRow(db, issueId).Some?
    ensures |ReviewIssue(env, db, issueId, input).value.checkouts| == |db.checkouts|
    ensures var i := ReviewedRow(db, issueId).value;
      var before, after := db.checkouts[i], ReviewIssue(env, db, issueId, input).value.checkouts[i];
      && after == before.(commission := after.commission, revision := before.revision + 1,
                          conversionState := after.conversionState)
      && (input.action.Exclude? ==> after.conversionState.Rejected?)
      && (input.action.Approve? ==> after.conversionState.Validated?)
    ensures var i := ReviewedRow(db, issueId).value;
      var before := db.checkouts[i].commission;
      var after := ReviewIssue(env, db, issueId, input).value.checkouts[i].commission;
      input.action.Exclude? ==>
        && after == before.(state := CommissionState.Rejected, cashback := after.cashback)
        && (before.cashback.None? ==> after.cashback.None?)
        && (before.cashback.Some? ==> after.cashback == Some(before.cashback.value.(state := CashbackRejected)))
    ensures var i := ReviewedRow(db, issueId).value;
      var before := db.checkouts[i].commission;
      var after := ReviewIssue(env, db, issueId, input).value.checkouts[i].commission;
      input.action.Approve? ==>
        && input.linkId.Some? && after.link == input.linkId
        && (exists l :: Credits(db, before, input, l) && after.user == Some(l.userId))
        && (after.state.Validated? <==> FullyPaid(env, db.checkouts[i].payload))
        && (!after.state.Validated? ==> after.state.Estimated?)
        && Some(after.estimatedVnd) == input.acceptedVnd
        && after.rawAmount == before.rawAmount && after.settledVnd == before.settledVnd
        && after.cashback.Some?
        && Shares(after.cashback.value,
                  if before.cashback.Some? then before.cashback.value.userBps
                  else if db.policy.Some? then db.policy.value.userBps else 8000, after.estimatedVnd, after.state)
  {
    hide RowOk, LedgerOk, BooksOk, ReviewIffOpen, OpenIssuesCurrent, OnePaid, ApprovedCommission, PaymentBlockers;
    hide FullyPaid, Shares, Credits, Close, Approves;
    var issue := db.issues[issueId];
    var at := FindCheckout(db.checkouts, issue.provider, issue.checkoutId);
    var row := db.checkouts[at.value];
    assert RowOk(env, row);
    if input.action.Approve? {
      ApproveExact(env, db, row, input);
    }
  }
}
