/** Where a cashback share comes from: the policy in force when the cashback row is made. */
module ShareTheorems {
  import opened Prelude
  import opened Digests
  import opened Payment
  import opened Attribution
  import opened Tables
  import opened Engine
  import opened Settlement
  import opened Invariants
  import opened Rows
  import opened Batches
  import opened Runs
  import opened PublishTheorems
  import opened ReviewTheorems

  /** The basis points a new cashback row gets: the policy's, or 8000 where no policy was ever stored. */
  function ShareNow(db: Db): nat {
    if db.policy.Some? then db.policy.value.userBps else 8000
  }

  /** The row has a cashback now and had none before. */
  predicate GainsCashback(a: seq<Checkout>, b: seq<Checkout>, i: nat)
    requires i < |b|
  {
    (i < |a| ==> a[i].commission.cashback.None?) && b[i].commission.cashback.Some?
  }

  /** An unpaid row whose cashback splits its estimate by these basis points. */
  predicate SplitBy(row: Checkout, bps: nat) {
    && !EverPaid(row.commission) && row.commission.user.Some? && row.commission.cashback.Some?
    && Shares(row.commission.cashback.value, bps, row.commission.estimatedVnd, row.commission.state)
  }

  lemma PaidKeepsCashback(env: Env, db: Db, sync: Sync, g: Group)
    requires db.credential.Some? && !Unchanged(env, db, sync, g) && WasPaid(db, sync, g)
    requires PublishOne(env, db, sync, g).Ok?
    ensures RowAfter(db, PublishOne(env, db, sync, g).value, sync, g).Some?
    ensures var before := db.checkouts[RowAt(db, sync, g).value].commission;
      var after := RowAfter(db, PublishOne(env, db, sync, g).value, sync, g).value.commission;
      && EverPaid(before) && (after.cashback.Some? <==> before.cashback.Some?)
    ensures PublishOne(env, db, sync, g).value.policy == db.policy
  {
    hide FindingOf, DigestOf, Close, Raise, PublishUnpaid, Reverse, MustReverse;
  }

  lemma SkippedKeeps(env: Env, db: Db, sync: Sync, g: Group)
    requires db.credential.Some? && Unchanged(env, db, sync, g)
    ensures PublishOne(env, db, sync, g) == Ok(db)
  {
    hide FindingOf, PublishFinding;
  }

  /** New cashback rows split by the share in force before, which stays in force; older ones keep theirs. */
  ghost predicate SharesSet(a: Db, b: Db) {
    && |a.checkouts| <= |b.checkouts| && ShareNow(b) == ShareNow(a)
    && (forall i :: 0 <= i < |b.checkouts| && GainsCashback(a.checkouts, b.checkouts, i) ==>
          SplitBy(b.checkouts[i], ShareNow(a)))
    && (forall i, bps: nat :: 0 <= i < |a.checkouts| && SplitBy(a.checkouts[i], bps) ==> SplitBy(b.checkouts[i], bps))
  }

  lemma PublishOneShares(env: Env, db: Db, sync: Sync, g: Group)
    requires db.credential.Some? && g.rows != [] && PublishOne(env, db, sync, g).Ok?
    ensures SharesSet(db, PublishOne(env, db, sync, g).value)
  {
    hide PublishOne, Unchanged, RowAt, Shares, FindingOf, Attribute, PublishedCheckout, Grounds, FullyPaid;
    if Unchanged(env, db, sync, g) {
      SkippedKeeps(env, db, sync, g);
    } else {
      RowWritten(env, db, sync, g);
      if WasPaid(db, sync, g) {
        PaidKeepsCashback(env, db, sync, g);
      } else {
        PublishedShare(env, db, sync, g);
        PublishedState(env, db, sync, g);
        SharesDetermine(db, sync, g);
      }
    }
  }

  lemma SharesDetermine(db: Db, sync: Sync, g: Group)
    ensures RowAt(db, sync, g).Some? ==>
      forall bps: nat :: SplitBy(db.checkouts[RowAt(db, sync, g).value], bps) ==>
        db.checkouts[RowAt(db, sync, g).value].commission.cashback.value.userBps == bps
  {
  }

  lemma SharesCompose(a: Db, m: Db, b: Db)
    requires SharesSet(a, m) && SharesSet(m, b)
    ensures SharesSet(a, b)
  {
    hide SplitBy, ShareNow;
    forall i | 0 <= i < |b.checkouts| && GainsCashback(a.checkouts, b.checkouts, i)
      ensures SplitBy(b.checkouts[i], ShareNow(a))
    {
      if i < |m.checkouts| && m.checkouts[i].commission.cashback.Some? {
        assert GainsCashback(a.checkouts, m.checkouts, i);
      } else {
        assert GainsCashback(m.checkouts, b.checkouts, i);
      }
    }
  }

  /** Publishing a whole snapshot, checkout by checkout. */
  lemma {:induction false} PublishAllShares(env: Env, db: Db, sync: Sync, groups: seq<Group>)
    requires db.credential.Some? && GroupsFilled(groups) && PublishAll(env, db, sync, groups).Ok?
    ensures SharesSet(db, PublishAll(env, db, sync, groups).value)
    decreases |groups|
  {
    hide PublishOne, SharesSet;
    if groups == [] {
      NothingSet(db);
    } else {
      var m := PublishOne(env, db, sync, groups[0]).value;
      PublishOneShares(env, db, sync, groups[0]);
      PublishAllShares(env, m, sync, groups[1..]);
      SharesCompose(db, m, PublishAll(env, db, sync, groups).value);
    }
  }

  lemma NothingSet(db: Db)
    ensures SharesSet(db, db)
  {
  }

  /**
   * Publishing a snapshot: every commission that has a cashback row after it and had none before splits its
   * estimate by the policy's basis points, or by 8000 where no policy was ever stored.
   */
  lemma PublishShares(env: Env, db: Db, sync: Sync, groups: seq<Group>, i: nat)
    requires GroupsFilled(groups) && Publish(env, db, sync, groups).Ok?
    requires i < |Publish(env, db, sync, groups).value.checkouts|
    requires GainsCashback(db.checkouts, Publish(env, db, sync, groups).value.checkouts, i)
    ensures var c := Publish(env, db, sync, groups).value.checkouts[i].commission;
      var bps := if db.policy.Some? then db.policy.value.userBps else 8000;
      && c.cashback.value.userBps == bps
      && c.cashback.value.userAmount == c.estimatedVnd * bps / 10000
      && c.cashback.value.platformAmount == c.estimatedVnd - c.estimatedVnd * bps / 10000
  {
    hide PublishAll;
    PublishAllShares(env, db, sync, groups);
  }

  lemma ValidatedHasCashback(env: Env, r: Checkout)
    requires RowOk(env, r) && r.commission.state.Validated?
    ensures r.commission.cashback.Some?
  {
    hide SourceOk, PaymentBlockers;
  }

  lemma PaysGainNone(env: Env, a: seq<Checkout>, b: seq<Checkout>, items: seq<SettlementItem>, i: nat)
    requires RowsOk(env, a) && Pays(a, b, items) && i < |b|
    ensures !GainsCashback(a, b, i)
  {
    hide RowOk, PaidItemOk, Fresh, WriteOnce;
    if b[i] != a[i] { ValidatedHasCashback(env, a[i]); }
  }

  /** Only publishing and reviewing make cashback rows. */
  lemma OthersGainNone(env: Env, db: Db, e: Event, i: nat)
    requires Inv(env, db) && !e.PublishEvent? && !e.ReviewEvent? && i < |Step(env, db, e).checkouts|
    ensures !GainsCashback(db.checkouts, Step(env, db, e).checkouts, i)
  {
    hide RowsOk, BooksOk, ReviewIffOpen, OpenIssuesCurrent, OnePaid, UniqueCheckouts, BatchesOk, Pays, Confirm;
    if e.ConfirmEvent? {
      if Confirm(env, db, e.batch).Ok? {
        ConfirmMoves(env, db, e.batch);
        var after := Confirm(env, db, e.batch).value;
        if after != db { PaysGainNone(env, db.checkouts, after.checkouts, db.batches[e.batch].items, i); }
      }
    } else {
      OthersKeepCheckouts(env, db, e);
    }
  }

  lemma ReviewShare(env: Env, db: Db, issueId: nat, input: Review, i: nat)
    requires Core(env, db) && ReviewIssue(env, db, issueId, input).Ok?
    requires i < |ReviewIssue(env, db, issueId, input).value.checkouts|
    requires GainsCashback(db.checkouts, ReviewIssue(env, db, issueId, input).value.checkouts, i)
    ensures var c := ReviewIssue(env, db, issueId, input).value.checkouts[i].commission;
      Shares(c.cashback.value, ShareNow(db), c.estimatedVnd, c.state)
  {
    hide Core, ReviewIssue, Shares, Credits, FullyPaid;
    ReviewSettles(env, db, issueId, input);
    ReviewExact(env, db, issueId, input);
  }

  /**
   * A share is the policy's. Whenever any step of any run leaves a commission with a cashback row that had
   * none before, the row splits the estimate by the basis points of the policy in force, or by 8000 where no
   * policy was ever stored. (`Runs.RunEvolves`: from then on the basis points never change.)
   */
  lemma ShareIsPolicys(env: Env, events: seq<Event>, e: Event, i: nat)
    requires i < |Step(env, Run(env, EMPTY, events), e).checkouts|
    requires GainsCashback(Run(env, EMPTY, events).checkouts, Step(env, Run(env, EMPTY, events), e).checkouts, i)
    ensures var db := Run(env, EMPTY, events); var c := Step(env, db, e).checkouts[i].commission;
      var bps := if db.policy.Some? then db.policy.value.userBps else 8000;
      && c.cashback.value.userBps == bps
      && c.cashback.value.userAmount == c.estimatedVnd * bps / 10000
      && c.cashback.value.platformAmount == c.estimatedVnd - c.estimatedVnd * bps / 10000
      && (e.PublishEvent? || e.ReviewEvent?)
  {
    hide Run, Core, BatchesOk, Publish, ReviewIssue;
    Reachable(env, events);
    var db := Run(env, EMPTY, events);
    match e
    case PublishEvent(sync, groups) => PublishShares(env, db, sync, groups, i);
    case ReviewEvent(issue, review) => ReviewShare(env, db, issue, review, i);
    case _ => OthersGainNone(env, db, e, i);
  }
}
