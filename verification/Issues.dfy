/** Publishing and reviewing keep checkouts unique and issues in step with their checkouts. */
module Issues {
  import opened Prelude
  import opened Digests
  import opened Inspection
  import opened Tables
  import opened Engine
  import opened Invariants

  /** `row` is written where the checkout (provider, checkoutId) lives, or would live. */
  ghost predicate Slot(checkouts: seq<Checkout>, at: Option<nat>, row: Checkout) {
    && (at.Some? ==> at.value < |checkouts| && SameCheckout(checkouts[at.value], row.provider, row.checkoutId))
    && (at.None? ==> forall i :: 0 <= i < |checkouts| ==> !SameCheckout(checkouts[i], row.provider, row.checkoutId))
  }

  lemma PutKeepsUnique(checkouts: seq<Checkout>, at: Option<nat>, row: Checkout)
    requires UniqueCheckouts(checkouts) && Slot(checkouts, at, row)
    ensures UniqueCheckouts(Put(checkouts, at, row))
  {
  }

  lemma PutKeepsOnePaid(checkouts: seq<Checkout>, at: Option<nat>, row: Checkout)
    requires OnePaid(checkouts) && Slot(checkouts, at, row)
    requires EverPaid(row.commission) ==> at.Some? && EverPaid(checkouts[at.value].commission)
    ensures OnePaid(Put(checkouts, at, row))
  {
  }

  /** Paying a commission nobody else claims leaves it the only one paid. */
  lemma PayKeepsOnePaid(checkouts: seq<Checkout>, id: nat, row: Checkout)
    requires OnePaid(checkouts) && UniqueCheckouts(checkouts)
    requires id < |checkouts| && SameCheckout(row, checkouts[id].provider, checkouts[id].checkoutId)
    requires !ClaimedElsewhere(checkouts, checkouts[id].provider, checkouts[id].checkoutId)
    ensures OnePaid(checkouts[id := row])
  {
    forall i | 0 <= i < |checkouts| && i != id && checkouts[i].checkoutId == checkouts[id].checkoutId
      ensures !EverPaid(checkouts[i].commission)
    {
      var a, b := if i < id then i else id, if i < id then id else i;
      assert !SameCheckout(checkouts[a], checkouts[b].provider, checkouts[b].checkoutId);
    }
  }

  /** No open issue of the checkout survives closing. */
  ghost predicate NoneKept(issues: seq<Issue>, provider: string, checkoutId: string, keep: Option<Digest>) {
    forall k :: 0 <= k < |issues| && issues[k].open && IssueOf(issues[k], provider, checkoutId) ==>
      Some(issues[k].sourceHash) != keep
  }

  lemma CloseClosesOnly(issues: seq<Issue>, provider: string, checkoutId: string, keep: Option<Digest>)
    requires NoneKept(issues, provider, checkoutId, keep)
    ensures var closed := Close(issues, provider, checkoutId, keep);
      && (forall k :: 0 <= k < |closed| ==>
            (closed[k].open <==> issues[k].open && !IssueOf(issues[k], provider, checkoutId))
            && (closed[k].open ==> closed[k] == issues[k])
            && IssueOf(closed[k], issues[k].provider, issues[k].checkoutId))
  {
  }

  /** Raising appends open issues of the checkout, one for each kind not open yet. */
  lemma {:induction false} RaiseAppends(issues: seq<Issue>, provider: string, checkoutId: string,
        kinds: seq<IssueType>, hash: Digest)
    ensures var r := Raise(issues, provider, checkoutId, kinds, hash);
      && |r| >= |issues| && r[..|issues|] == issues
      && (forall k :: |issues| <= k < |r| ==>
            r[k].open && IssueOf(r[k], provider, checkoutId) && r[k].sourceHash == hash && r[k].kind in kinds)
      && (forall t :: t in kinds ==> Issue(provider, checkoutId, t, hash, true) in r)
    decreases |kinds|
  {
    if kinds != [] {
      var n := |kinds| - 1;
      RaiseAppends(issues, provider, checkoutId, kinds[..n], hash);
      assert forall t :: t in kinds <==> t in kinds[..n] || t == kinds[n];
    }
  }

  /** The issues after publishing: the checkout's old ones resolved, its new ones open. */
  function Published(issues: seq<Issue>, row: Checkout, kinds: seq<IssueType>): seq<Issue> {
    var closed := Close(issues, row.provider, row.checkoutId, Some(row.sourceHash));
    Raise(closed, row.provider, row.checkoutId, kinds, row.sourceHash)
  }

  lemma PublishedOpen(issues: seq<Issue>, row: Checkout, kinds: seq<IssueType>)
    requires NoneKept(issues, row.provider, row.checkoutId, Some(row.sourceHash))
    ensures var r := Published(issues, row, kinds);
      && (HasOpenIssue(r, row.provider, row.checkoutId) <==> kinds != [])
      && (forall p, c :: !(p == row.provider && c == row.checkoutId) ==>
            (HasOpenIssue(r, p, c) <==> HasOpenIssue(issues, p, c)))
      && (forall k :: 0 <= k < |r| && r[k].open ==>
            || (IssueOf(r[k], row.provider, row.checkoutId) && r[k].sourceHash == row.sourceHash)
            || (!IssueOf(r[k], row.provider, row.checkoutId) && k < |issues| && r[k] == issues[k]))
  {
    var closed := Close(issues, row.provider, row.checkoutId, Some(row.sourceHash));
    var r := Published(issues, row, kinds);
    CloseClosesOnly(issues, row.provider, row.checkoutId, Some(row.sourceHash));
    RaiseAppends(closed, row.provider, row.checkoutId, kinds, row.sourceHash);
    assert forall k :: 0 <= k < |issues| ==> r[k] == r[..|closed|][k] == closed[k];
    if kinds != [] {
      assert kinds[0] in kinds;
      var k :| 0 <= k < |r| && r[k] == Issue(row.provider, row.checkoutId, kinds[0], row.sourceHash, true);
    }
    forall p, c | !(p == row.provider && c == row.checkoutId) && HasOpenIssue(issues, p, c)
      ensures HasOpenIssue(r, p, c)
    {
      var k :| 0 <= k < |issues| && issues[k].open && IssueOf(issues[k], p, c);
      assert r[k] == issues[k];
    }
  }

  /** A new snapshot of a checkout has no open issue raised for its digest. */
  lemma NewDigestNotKept(checkouts: seq<Checkout>, issues: seq<Issue>, at: Option<nat>, row: Checkout)
    requires UniqueCheckouts(checkouts) && OpenIssuesCurrent(checkouts, issues) && Slot(checkouts, at, row)
    requires at.Some? ==> checkouts[at.value].sourceHash != row.sourceHash
    ensures NoneKept(issues, row.provider, row.checkoutId, Some(row.sourceHash))
  {
    forall k | 0 <= k < |issues| && issues[k].open && IssueOf(issues[k], row.provider, row.checkoutId)
      ensures issues[k].sourceHash != row.sourceHash
    {
      assert Current(checkouts, issues[k]);
      var i :| 0 <= i < |checkouts| && SameCheckout(checkouts[i], row.provider, row.checkoutId)
        && checkouts[i].sourceHash == issues[k].sourceHash;
      if at.Some? { OnlyOne(checkouts, i, at.value); }
    }
  }

  lemma OnlyOne(checkouts: seq<Checkout>, i: nat, j: nat)
    requires UniqueCheckouts(checkouts) && i < |checkouts| && j < |checkouts|
    requires SameCheckout(checkouts[i], checkouts[j].provider, checkouts[j].checkoutId)
    ensures i == j
  {
  }

  /** An issue of another checkout stays current. */
  lemma CurrentElsewhere(checkouts: seq<Checkout>, at: Option<nat>, row: Checkout, issue: Issue)
    requires Slot(checkouts, at, row) && Current(checkouts, issue) && !IssueOf(issue, row.provider, row.checkoutId)
    ensures Current(Put(checkouts, at, row), issue)
  {
    var i :| 0 <= i < |checkouts| && SameCheckout(checkouts[i], issue.provider, issue.checkoutId)
      && checkouts[i].sourceHash == issue.sourceHash;
    assert Put(checkouts, at, row)[i] == checkouts[i];
  }

  /** Publishing keeps issues current, and manual review in step with them. */
  lemma PublishKeepsIssues(checkouts: seq<Checkout>, issues: seq<Issue>, at: Option<nat>, row: Checkout,
        kinds: seq<IssueType>)
    requires UniqueCheckouts(checkouts) && OpenIssuesCurrent(checkouts, issues) && ReviewIffOpen(checkouts, issues)
    requires Slot(checkouts, at, row)
    requires at.Some? ==> checkouts[at.value].sourceHash != row.sourceHash
    requires !EverPaid(row.commission) ==> (row.commission.state.ManualReview? <==> kinds != [])
    ensures OpenIssuesCurrent(Put(checkouts, at, row), Published(issues, row, kinds))
    ensures ReviewIffOpen(Put(checkouts, at, row), Published(issues, row, kinds))
  {
    var checkouts', issues' := Put(checkouts, at, row), Published(issues, row, kinds);
    var here := if at.Some? then at.value else |checkouts|;
    NewDigestNotKept(checkouts, issues, at, row);
    PublishedOpen(issues, row, kinds);
    assert checkouts'[here] == row;
    forall k | 0 <= k < |issues'| && issues'[k].open ensures Current(checkouts', issues'[k]) {
      if IssueOf(issues'[k], row.provider, row.checkoutId) {
        assert SameCheckout(checkouts'[here], row.provider, row.checkoutId);
      } else {
        CurrentElsewhere(checkouts, at, row, issues[k]);
      }
    }
    PutKeepsUnique(checkouts, at, row);
    forall i | 0 <= i < |checkouts'| && !EverPaid(checkouts'[i].commission)
      ensures checkouts'[i].commission.state.ManualReview? <==>
        HasOpenIssue(issues', checkouts'[i].provider, checkouts'[i].checkoutId)
    {
      if i != here {
        if SameCheckout(checkouts'[i], row.provider, row.checkoutId) { OnlyOne(checkouts', i, here); }
        assert checkouts'[i] == checkouts[i];
      }
    }
  }

  /** A review resolves every open issue of its checkout. */
  lemma ReviewKeepsIssues(checkouts: seq<Checkout>, issues: seq<Issue>, i: nat, row: Checkout)
    requires UniqueCheckouts(checkouts) && OpenIssuesCurrent(checkouts, issues) && ReviewIffOpen(checkouts, issues)
    requires i < |checkouts| && SameCheckout(row, checkouts[i].provider, checkouts[i].checkoutId)
    requires !row.commission.state.ManualReview?
    ensures var issues' := Close(issues, row.provider, row.checkoutId, None);
      OpenIssuesCurrent(checkouts[i := row], issues') && ReviewIffOpen(checkouts[i := row], issues')
  {
    var checkouts', issues' := checkouts[i := row], Close(issues, row.provider, row.checkoutId, None);
    CloseClosesOnly(issues, row.provider, row.checkoutId, None);
    forall k | 0 <= k < |issues'| && issues'[k].open ensures Current(checkouts', issues'[k]) {
      CurrentElsewhere(checkouts, Some(i), row, issues[k]);
    }
    forall j | 0 <= j < |checkouts'| && !EverPaid(checkouts'[j].commission)
      ensures checkouts'[j].commission.state.ManualReview? <==>
        HasOpenIssue(issues', checkouts'[j].provider, checkouts'[j].checkoutId)
    {
      if j != i {
        if SameCheckout(checkouts[j], row.provider, row.checkoutId) { OnlyOne(checkouts, j, i); }
        CloseElsewhere(issues, issues', row, checkouts[j].provider, checkouts[j].checkoutId);
      }
    }
  }

  lemma CloseElsewhere(issues: seq<Issue>, closed: seq<Issue>, row: Checkout, provider: string, checkoutId: string)
    requires |closed| == |issues| && !(provider == row.provider && checkoutId == row.checkoutId)
    requires forall k :: 0 <= k < |closed| ==>
      (closed[k].open <==> issues[k].open && !IssueOf(issues[k], row.provider, row.checkoutId))
      && IssueOf(closed[k], issues[k].provider, issues[k].checkoutId)
    ensures HasOpenIssue(closed, provider, checkoutId) <==> HasOpenIssue(issues, provider, checkoutId)
  {
    if HasOpenIssue(issues, provider, checkoutId) {
      var k :| 0 <= k < |issues| && issues[k].open && IssueOf(issues[k], provider, checkoutId);
      assert closed[k].open;
    }
  }

  /** Paying changes neither the identity nor the digest of a checkout, and ends its review duties. */
  lemma PayKeepsIssues(checkouts: seq<Checkout>, issues: seq<Issue>, i: nat, row: Checkout)
    requires OpenIssuesCurrent(checkouts, issues) && ReviewIffOpen(checkouts, issues)
    requires i < |checkouts| && SameCheckout(row, checkouts[i].provider, checkouts[i].checkoutId)
    requires row.sourceHash == checkouts[i].sourceHash && EverPaid(row.commission)
    ensures OpenIssuesCurrent(checkouts[i := row], issues) && ReviewIffOpen(checkouts[i := row], issues)
  {
    forall k | 0 <= k < |issues| && issues[k].open ensures Current(checkouts[i := row], issues[k]) {
      assert Current(checkouts, issues[k]);
      var j :| 0 <= j < |checkouts| && SameCheckout(checkouts[j], issues[k].provider, issues[k].checkoutId)
        && checkouts[j].sourceHash == issues[k].sourceHash;
      assert SameCheckout(checkouts[i := row][j], issues[k].provider, issues[k].checkoutId);
    }
  }
}
