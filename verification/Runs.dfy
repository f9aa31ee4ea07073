/** Runs: every interleaving of the services' transactions, each committing or rolling back. */
module Runs {
  import opened Prelude
  import opened Money
  import opened Payment
  import opened Attribution
  import opened Wallets
  import opened Tables
  import opened Engine
  import opened Eligibility
  import opened Settlement
  import opened Withdrawals
  import opened Invariants
  import opened Rows
  import opened CoreSteps
  import opened Batches

  datatype Event =
    | PublishEvent(sync: Sync, groups: seq<Group>)
    | ReviewEvent(issue: nat, review: Review)
    | CreateEvent(request: Request)
    | ConfirmEvent(batch: nat)
    | CancelEvent(batch: nat)
    | WithdrawEvent(withdrawal: WithdrawalRequest)
    | TransitionEvent(id: nat, to: WithdrawalStatus)
    | AdjustEvent(user: UserId, key: string, amount: int)
    | PolicyEvent(userBps: nat, minWithdrawal: Option<nat>)
    | CredentialEvent(credential: Credential)
    | LinksEvent(links: seq<Link>)

  predicate GroupsFilled(groups: seq<Group>) {
    forall k :: 0 <= k < |groups| ==> groups[k].rows != []
  }

  /** `updatePolicy`: existing allocations keep their share. */
  function UpdatePolicy(db: Db, userBps: nat, minWithdrawal: Option<nat>): Result<Db> {
    if !(100 <= userBps <= 10000) then Err(InvalidInput)
    else
      var min := if minWithdrawal.Some? then minWithdrawal.value else PolicyOr(db.policy).minWithdrawal;
      Ok(db.(policy := Some(Policy(userBps, min))))
  }

  /** One transaction. Inputs the request schemas or the ingest loop rule out are refused here. */
  function Perform(env: Env, db: Db, e: Event): Result<Db> {
    match e
    case PublishEvent(sync, groups) =>
      if GroupsFilled(groups) then Publish(env, db, sync, groups) else Err(InvalidInput)
    case ReviewEvent(issue, review) => ReviewIssue(env, db, issue, review)
    case CreateEvent(request) => Create(env, db, request)
    case ConfirmEvent(batch) => Confirm(env, db, batch)
    case CancelEvent(batch) => Cancel(db, batch)
    case WithdrawEvent(withdrawal) => CreateWithdrawal(env, db, withdrawal)
    case TransitionEvent(id, to) => Transition(db, id, to)
    case AdjustEvent(user, key, amount) => Adjust(db, user, key, amount)
    case PolicyEvent(bps, min) => UpdatePolicy(db, bps, min)
    case CredentialEvent(c) =>
      if WellFormedAccount(c.accountId) then Ok(db.(credential := Some(c))) else Err(InvalidInput)
    case LinksEvent(links) => Ok(db.(links := links))
  }

  /** A failed transaction leaves no trace. */
  function Step(env: Env, db: Db, e: Event): Db {
    var r := Perform(env, db, e);
    if r.Ok? then r.value else db
  }

  function Run(env: Env, db: Db, events: seq<Event>): Db
    decreases |events|
  {
    if events == [] then db else Run(env, Step(env, db, events[0]), events[1..])
  }

  lemma {:induction false} PublishAllKeepsCore(env: Env, db: Db, sync: Sync, groups: seq<Group>)
    requires Core(env, db) && db.credential.Some? && WellFormedAccount(sync.accountId) && GroupsFilled(groups)
    ensures PublishAll(env, db, sync, groups).Ok?
    ensures var db' := PublishAll(env, db, sync, groups).value;
      && Core(env, db')
      && Bumps(db.checkouts, db'.checkouts)
      && SameElsewhere(db, db')
    decreases |groups|
  {
    hide Core, PublishOne, Bumped, StakeOf;
    if groups != [] {
      PublishOneKeepsCore(env, db, sync, groups[0]);
      var m := PublishOne(env, db, sync, groups[0]).value;
      PublishAllKeepsCore(env, m, sync, groups[1..]);
      BumpsCompose(db.checkouts, m.checkouts, PublishAll(env, db, sync, groups).value.checkouts);
    }
  }

  lemma BumpedTwice(a: Checkout, b: Checkout, c: Checkout)
    requires (b == a || Bumped(a, b)) && (c == b || Bumped(b, c))
    ensures c == a || Bumped(a, c)
  {
  }

  lemma BumpsCompose(a: seq<Checkout>, b: seq<Checkout>, c: seq<Checkout>)
    requires Bumps(a, b) && Bumps(b, c)
    ensures Bumps(a, c)
  {
    hide Bumped;
    forall i | 0 <= i < |a| ensures c[i] == a[i] || Bumped(a[i], c[i]) {
      BumpedTwice(a[i], b[i], c[i]);
    }
    forall i | |a| <= i < |c| ensures StakeOf(c[i]) == NoStake && !EverPaid(c[i].commission) {
      if i < |b| { NeverPaid(b[i], c[i]); }
    }
  }

  lemma NeverPaid(b: Checkout, c: Checkout)
    requires (c == b || Bumped(b, c)) && StakeOf(b) == NoStake && !EverPaid(b.commission)
    ensures StakeOf(c) == NoStake && !EverPaid(c.commission)
  {
  }

  lemma PublishKeepsCore(env: Env, db: Db, sync: Sync, groups: seq<Group>)
    requires Core(env, db) && Publish(env, db, sync, groups).Ok? && GroupsFilled(groups)
    ensures var db' := Publish(env, db, sync, groups).value;
      && Core(env, db')
      && Bumps(db.checkouts, db'.checkouts)
      && SameElsewhere(db, db')
  {
    hide RowsOk, LedgerOk, BooksOk, ReviewIffOpen, OpenIssuesCurrent, OnePaid, UniqueCheckouts, PublishAll;
    PublishAllKeepsCore(env, db, sync, groups);
  }

  lemma CoreIgnoresSettings(env: Env, db: Db, credential: Option<Credential>, links: seq<Link>, policy: Option<Policy>)
    requires Core(env, db) && CredentialOk(credential)
    ensures Core(env, db.(credential := credential, links := links, policy := policy))
  {
    hide RowsOk, LedgerOk, BooksOk, ReviewIffOpen, OpenIssuesCurrent, OnePaid, UniqueCheckouts;
  }

  /** What a transaction does to the checkouts. */
  ghost predicate Moves(env: Env, db: Db, e: Event, db': Db) {
    if e.ConfirmEvent? then
      db'.checkouts == db.checkouts ||
      (e.batch < |db.batches| && db.batches[e.batch].status.Draft?
       && Pays(db.checkouts, db'.checkouts, db.batches[e.batch].items))
    else Bumps(db.checkouts, db'.checkouts)
  }

  lemma SameBumps(checkouts: seq<Checkout>)
    ensures Bumps(checkouts, checkouts)
  {
  }

  /** Publishing, reviewing and the settings. */
  lemma EngineStep(env: Env, db: Db, e: Event)
    requires Inv(env, db) && Perform(env, db, e).Ok?
    requires e.PublishEvent? || e.ReviewEvent? || e.PolicyEvent? || e.CredentialEvent? || e.LinksEvent?
    ensures Inv(env, Perform(env, db, e).value)
    ensures Bumps(db.checkouts, Perform(env, db, e).value.checkouts)
  {
    hide Core, BatchesOk, Bumps, Publish, ReviewIssue;
    var db' := Perform(env, db, e).value;
    match e
    case PublishEvent(sync, groups) =>
      PublishKeepsCore(env, db, sync, groups);
      BumpKeepsBatches(db.checkouts, db'.checkouts, db.batches);
    case ReviewEvent(issue, review) =>
      ReviewKeepsCore(env, db, issue, review);
      ReviewKeepsBatchTable(env, db, issue, review);
      BumpKeepsBatches(db.checkouts, db'.checkouts, db.batches);
    case _ =>
      SameBumps(db.checkouts);
      CredentialKept(env, db);
      CoreIgnoresSettings(env, db, db'.credential, db'.links, db'.policy);
  }

  lemma CredentialKept(env: Env, db: Db)
    requires Core(env, db)
    ensures CredentialOk(db.credential)
  {
  }

  lemma ReviewKeepsBatchTable(env: Env, db: Db, issue: nat, review: Review)
    requires ReviewIssue(env, db, issue, review).Ok?
    ensures ReviewIssue(env, db, issue, review).value.batches == db.batches
  {
    hide ApprovedCommission, Excluded, Close;
  }

  /** Settlement. */
  lemma SettlementStep(env: Env, db: Db, e: Event)
    requires Inv(env, db) && Perform(env, db, e).Ok?
    requires e.CreateEvent? || e.ConfirmEvent? || e.CancelEvent?
    ensures Inv(env, Perform(env, db, e).value)
    ensures Moves(env, db, e, Perform(env, db, e).value)
  {
    hide Core, BatchesOk, Create, Confirm, Cancel, Bumped, StakeOf, Pays;
    match e
    case CreateEvent(request) =>
      CreateKeepsBatches(env, db, request);
      CreatedBatchOk(env, db, request);
      CoreIgnoresBatches(env, db, Create(env, db, request).value.batches);
    case ConfirmEvent(batch) =>
      ConfirmKeepsInv(env, db, batch);
      ConfirmMoves(env, db, batch);
    case CancelEvent(batch) =>
      CancelKeepsBatches(db, batch);
      CancelTouchesBatches(db, batch);
      CoreIgnoresBatches(env, db, Cancel(db, batch).value.batches);
  }

  lemma CancelTouchesBatches(db: Db, id: nat)
    requires Cancel(db, id).Ok?
    ensures Cancel(db, id).value == db.(batches := Cancel(db, id).value.batches)
  {
  }

  lemma ConfirmMoves(env: Env, db: Db, id: nat)
    requires Core(env, db) && Confirm(env, db, id).Ok?
    ensures id < |db.batches|
    ensures
      || Confirm(env, db, id).value == db
      || (db.batches[id].status.Draft?
          && Pays(db.checkouts, Confirm(env, db, id).value.checkouts, db.batches[id].items))
  {
    hide Core, ConfirmItems, Pays;
    if db.batches[id].status.Draft? {
      ConfirmItemsPay(env, db, db.batches[id].items);
    }
  }

  /** Withdrawals and adjustments. */
  lemma WalletStep(env: Env, db: Db, e: Event)
    requires Inv(env, db) && Perform(env, db, e).Ok?
    requires e.WithdrawEvent? || e.TransitionEvent? || e.AdjustEvent?
    ensures Inv(env, Perform(env, db, e).value)
    ensures Perform(env, db, e).value.checkouts == db.checkouts && Perform(env, db, e).value.batches == db.batches
  {
    hide Core, BatchesOk, Post;
    match e
    case WithdrawEvent(withdrawal) => CreateWithdrawalKeepsCore(env, db, withdrawal);
    case TransitionEvent(id, to) => TransitionKeepsCore(env, db, id, to);
    case AdjustEvent(user, key, amount) => AdjustKeepsCore(env, db, user, key, amount);
  }

  /** Most service calls do not touch checkouts at all. */
  lemma OthersKeepCheckouts(env: Env, db: Db, e: Event)
    requires !e.PublishEvent? && !e.ReviewEvent? && !e.ConfirmEvent?
    ensures Step(env, db, e).checkouts == db.checkouts
  {
    hide WellFormed, RowsEligible, ProvidersEligible, FirstBlocker, AllocateNet, Post, InDebt;
  }

  /** Every transaction keeps all invariants, whether it commits or rolls back. */
  lemma StepKeepsInv(env: Env, db: Db, e: Event)
    requires Inv(env, db)
    ensures Inv(env, Step(env, db, e))
    ensures Moves(env, db, e, Step(env, db, e))
  {
    hide Inv, Perform, Pays, Bumped, StakeOf;
    if Perform(env, db, e).Ok? {
      match e
      case PublishEvent(_, _) => EngineStep(env, db, e);
      case ReviewEvent(_, _) => EngineStep(env, db, e);
      case PolicyEvent(_, _) => EngineStep(env, db, e);
      case CredentialEvent(_) => EngineStep(env, db, e);
      case LinksEvent(_) => EngineStep(env, db, e);
      case CreateEvent(_) => SettlementStep(env, db, e);
      case ConfirmEvent(_) => SettlementStep(env, db, e);
      case CancelEvent(_) => SettlementStep(env, db, e);
      case _ => WalletStep(env, db, e);
    }
  }

  lemma {:induction false} RunKeepsInv(env: Env, db: Db, events: seq<Event>)
    requires Inv(env, db)
    ensures Inv(env, Run(env, db, events))
    decreases |events|
  {
    hide Inv, Step;
    if events != [] {
      StepKeepsInv(env, db, events[0]);
      RunKeepsInv(env, Step(env, db, events[0]), events[1..]);
    }
  }

  /** All invariants hold after any run from the empty database. */
  lemma Reachable(env: Env, events: seq<Event>)
    ensures Inv(env, Run(env, EMPTY, events))
  {
    EmptyOk(env);
    RunKeepsInv(env, EMPTY, events);
  }

  // ---------- What no run undoes ----------

  /** How a row may change over any number of transactions. */
  ghost predicate Evolved(a: Checkout, b: Checkout) {
    && SameIdentity(a, b)
    && WriteOnce(a.commission, b.commission)
    && a.revision <= b.revision
    && (b.revision == a.revision ==> b == a || PaidFrom(a, b))
    && (EverPaid(a.commission) ==> EverPaid(b.commission))
    && (a.commission.state.Reversed? ==> b.commission.state.Reversed?)
    && (StakeOf(a).Stake? ==> StakeOf(b) == StakeOf(a) || StakeOf(b) == StakeOf(a).(reversed := true))
  }

  ghost predicate AllEvolved(a: seq<Checkout>, b: seq<Checkout>) {
    |a| <= |b| && forall i :: 0 <= i < |a| ==> Evolved(a[i], b[i])
  }

  lemma BumpEvolves(a: Checkout, b: Checkout)
    requires b == a || Bumped(a, b)
    ensures Evolved(a, b)
  {
  }

  lemma PayEvolves(a: Checkout, b: Checkout)
    requires b == a || PaidFrom(a, b)
    ensures Evolved(a, b)
  {
  }

  lemma EvolvedTwice(a: Checkout, b: Checkout, c: Checkout)
    requires Evolved(a, b) && Evolved(b, c)
    ensures Evolved(a, c)
  {
  }

  lemma StepEvolves(env: Env, db: Db, e: Event)
    requires Inv(env, db)
    ensures AllEvolved(db.checkouts, Step(env, db, e).checkouts)
  {
    hide Inv, Step, Evolved, Bumped, PaidFrom, StakeOf;
    StepKeepsInv(env, db, e);
    var b := Step(env, db, e).checkouts;
    forall i | 0 <= i < |db.checkouts| ensures Evolved(db.checkouts[i], b[i]) {
      if b[i] == db.checkouts[i] || Bumped(db.checkouts[i], b[i]) {
        BumpEvolves(db.checkouts[i], b[i]);
      } else {
        PayEvolves(db.checkouts[i], b[i]);
      }
    }
  }

  /**
   * Over any run, a commission's user and share are written once, revisions never go back, an unchanged
   * revision means nothing but a payment happened, and money once paid stays on record.
   */
  lemma {:induction false} RunEvolves(env: Env, db: Db, events: seq<Event>)
    requires Inv(env, db)
    ensures AllEvolved(db.checkouts, Run(env, db, events).checkouts)
    decreases |events|
  {
    hide Inv, Step, Evolved;
    if events == [] {
      forall i | 0 <= i < |db.checkouts| ensures Evolved(db.checkouts[i], db.checkouts[i]) {
        PayEvolves(db.checkouts[i], db.checkouts[i]);
      }
    } else {
      var m := Step(env, db, events[0]);
      StepKeepsInv(env, db, events[0]);
      StepEvolves(env, db, events[0]);
      RunEvolves(env, m, events[1..]);
      var b := Run(env, db, events).checkouts;
      forall i | 0 <= i < |db.checkouts| ensures Evolved(db.checkouts[i], b[i]) {
        EvolvedTwice(db.checkouts[i], m.checkouts[i], b[i]);
      }
    }
  }

  /** PAID is entered by confirming a draft, from VALIDATED, and left only for REVERSED, which is final. */
  lemma PaidLifecycle(env: Env, db: Db, e: Event, i: nat)
    requires Inv(env, db) && i < |Step(env, db, e).checkouts|
    ensures var after := Step(env, db, e).checkouts[i].commission.state;
      && (after.Paid? ==>
            && i < |db.checkouts|
            && (db.checkouts[i].commission.state.Paid? ||
                (db.checkouts[i].commission.state.Validated? && e.ConfirmEvent? && e.batch < |db.batches|
                 && db.batches[e.batch].status.Draft? && Names(db.batches[e.batch].items, i))))
      && (after.Reversed? ==> i < |db.checkouts| && EverPaid(db.checkouts[i].commission))
      && (i < |db.checkouts| && db.checkouts[i].commission.state.Paid? ==> after.Paid? || after.Reversed?)
      && (i < |db.checkouts| && db.checkouts[i].commission.state.Reversed? ==> after.Reversed?)
  {
    hide Inv, Step;
    StepKeepsInv(env, db, e);
  }

  // ---------- Batches over runs ----------

  /** A batch keeps its contents until a draft is confirmed or cancelled. */
  predicate BatchEvolved(a: SettlementBatch, b: SettlementBatch) {
    || b == a
    || (a.status.Draft? && b == a.(status := Confirmed))
    || (a.status.Draft? && b == a.(status := BatchStatus.Cancelled, items := []))
  }

  ghost predicate BatchesEvolved(a: seq<SettlementBatch>, b: seq<SettlementBatch>) {
    |a| <= |b| && forall k :: 0 <= k < |a| ==> BatchEvolved(a[k], b[k])
  }

  lemma StepKeepsBatches(env: Env, db: Db, e: Event)
    requires Inv(env, db)
    ensures BatchesEvolved(db.batches, Step(env, db, e).batches)
  {
    hide Core, BatchesOk, Publish, ReviewIssue, Create, ConfirmItems, CreateWithdrawal, Transition, Adjust;
    if Perform(env, db, e).Ok? {
      match e
      case PublishEvent(sync, groups) => PublishKeepsCore(env, db, sync, groups);
      case ReviewEvent(issue, review) => ReviewKeepsBatchTable(env, db, issue, review);
      case CreateEvent(request) =>
        CreatedBatchOk(env, db, request);
        var b := Create(env, db, request).value.batches;
        assert forall k :: 0 <= k < |db.batches| ==> b[k] == b[..|db.batches|][k];
      case WithdrawEvent(_) => WalletStep(env, db, e);
      case TransitionEvent(_, _) => WalletStep(env, db, e);
      case AdjustEvent(_, _, _) => WalletStep(env, db, e);
      case _ =>
    }
  }

  lemma {:induction false} RunKeepsBatches(env: Env, db: Db, events: seq<Event>)
    requires Inv(env, db)
    ensures BatchesEvolved(db.batches, Run(env, db, events).batches)
    decreases |events|
  {
    hide Inv, Step;
    if events != [] {
      StepKeepsInv(env, db, events[0]);
      StepKeepsBatches(env, db, events[0]);
      RunKeepsBatches(env, Step(env, db, events[0]), events[1..]);
    }
  }

  lemma {:induction false} RunSplit(env: Env, db: Db, events: seq<Event>, n: nat)
    requires n <= |events|
    ensures Run(env, db, events) == Run(env, Run(env, db, events[..n]), events[n..])
    decreases |events|
  {
    hide Step;
    if n == 0 {
      assert events[..0] == [] && events[0..] == events;
    } else {
      RunSplit(env, Step(env, db, events[0]), events[1..], n - 1);
      assert events[..n][1..] == events[1..][..n - 1];
      assert events[n..] == events[1..][n - 1..];
    }
  }

  /**
   * Optimistic concurrency. If a batch is created, any run follows, and the batch is then confirmed, no
   * publish or review touched any of its checkouts in between: at every moment of the run the rows are
   * the ones the batch was created from, so their estimates still add up to the gross amount.
   */
  lemma ConfirmSeesCreate(env: Env, db: Db, input: Request, events: seq<Event>, n: nat)
    requires Inv(env, db) && Create(env, db, input).Ok? && n <= |events|
    requires var last := Run(env, Create(env, db, input).value, events);
      && |db.batches| < |last.batches| && last.batches[|db.batches|].status.Draft?
      && Confirm(env, last, |db.batches|).Ok?
    ensures InRange(input.ids, |db.checkouts|)
    ensures var mid := Run(env, Create(env, db, input).value, events[..n]).checkouts;
      && |mid| >= |db.checkouts|
      && (forall k :: 0 <= k < |input.ids| ==> mid[input.ids[k]] == db.checkouts[input.ids[k]])
    ensures Total(Weights(db.checkouts, input.ids)) == input.grossVnd
  {
    hide Inv, Create, Confirm, Evolved, Pays, BatchOk, Fresh, Step;
    var id := |db.batches|;
    var created := Create(env, db, input).value;
    var mid, last := Run(env, created, events[..n]), Run(env, created, events);
    CreateFacts(env, db, input);
    assert Inv(env, created) && created.checkouts == db.checkouts by {
      assert Perform(env, db, CreateEvent(input)) == Create(env, db, input);
      SettlementStep(env, db, CreateEvent(input));
      CreatedBatchOk(env, db, input);
    }
    RunKeepsInv(env, created, events[..n]);
    RunKeepsInv(env, created, events);
    RunSplit(env, created, events, n);
    RunEvolves(env, created, events[..n]);
    RunEvolves(env, mid, events[n..]);
    RunKeepsBatches(env, created, events);
    ConfirmNeedsFresh(env, last, id);
    forall k | 0 <= k < |input.ids| ensures mid.checkouts[input.ids[k]] == db.checkouts[input.ids[k]] {
      assert last.batches[id].items[k] == created.batches[id].items[k];
      Untouched(db.checkouts[input.ids[k]], mid.checkouts[input.ids[k]], last.checkouts[input.ids[k]]);
    }
  }

  lemma CreateFacts(env: Env, db: Db, input: Request)
    requires Create(env, db, input).Ok?
    ensures InRange(input.ids, |db.checkouts|)
    ensures Total(Weights(db.checkouts, input.ids)) == input.grossVnd
    ensures var b := Create(env, db, input).value.batches;
      && |b| == |db.batches| + 1 && b[|db.batches|].status.Draft?
      && |b[|db.batches|].items| == |input.ids|
      && (forall k :: 0 <= k < |input.ids| ==>
            b[|db.batches|].items[k].commission == input.ids[k]
            && b[|db.batches|].items[k].revisionSnapshot == db.checkouts[input.ids[k]].revision)
  {
    hide ProvidersEligible, CommissionBlockers;
  }

  /** Confirming a draft requires every item's checkout to be at its snapshot and validated. */
  lemma ConfirmNeedsFresh(env: Env, db: Db, id: nat)
    requires Inv(env, db) && id < |db.batches| && db.batches[id].status.Draft? && Confirm(env, db, id).Ok?
    ensures forall k :: 0 <= k < |db.batches[id].items| ==>
      var i := db.batches[id].items[k].commission;
      && i < |db.checkouts|
      && db.checkouts[i].revision == db.batches[id].items[k].revisionSnapshot
      && db.checkouts[i].commission.state.Validated?
  {
    hide Core, ConfirmItems, StakeOf, PaidFrom;
    var items := db.batches[id].items;
    ConfirmItemsPay(env, db, items);
    assert BatchOk(db.checkouts, db.batches[id]);
    forall k | 0 <= k < |items| ensures Fresh(db.checkouts, items[k]) && DraftItemOk(db.checkouts, items[k]) {}
  }

  lemma Untouched(a: Checkout, m: Checkout, b: Checkout)
    requires Evolved(a, m) && Evolved(m, b)
    requires b.revision == a.revision && b.commission.state.Validated?
    ensures m == a
  {
  }
}
