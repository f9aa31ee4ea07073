/** The good paths stay open: money that is due can be paid, and money that is there can be withdrawn. */
module Progress {
  import opened Prelude
  import opened Money
  import opened Payment
  import opened Wallets
  import opened Tables
  import opened Eligibility
  import opened Settlement
  import opened Withdrawals
  import opened Invariants
  import opened Books
  import opened CoreSteps
  import opened Batches
  import opened Runs
  import opened MoneyTheorems
  import opened CommissionTheorems
  import opened Effects
  import ListView

  lemma RunAppend(env: Env, db: Db, events: seq<Event>, e: Event)
    ensures Run(env, db, events + [e]) == Step(env, Run(env, db, events), e)
  {
    hide Step;
    var all := events + [e];
    RunSplit(env, db, all, |events|);
    assert all[..|events|] == events && all[|events|..] == [e];
    assert Run(env, Run(env, db, events), [e]) == Run(env, Step(env, Run(env, db, events), e), [e][1..]);
    assert [e][1..] == [];
  }

  // ---------- Settlement ----------

  /** What makes a commission due: nothing blocks it. */
  ghost predicate Due(env: Env, db: Db, i: nat) {
    i < |db.checkouts| && forall b :: !Blocks(env, db, i, b)
  }

  ghost predicate AllDue(env: Env, db: Db, ids: seq<nat>) {
    forall k :: 0 <= k < |ids| ==> Due(env, db, ids[k])
  }

  /** 1 to 500 different commissions. */
  ghost predicate Requestable(ids: seq<nat>) {
    1 <= |ids| <= 500 && forall i, j :: 0 <= i < j < |ids| ==> ids[i] != ids[j]
  }

  /** The amounts of a request fit together and with the commissions it names; its reference is new. */
  ghost predicate Fits(db: Db, input: Request)
    requires InRange(input.ids, |db.checkouts|)
  {
    && Requestable(input.ids)
    && input.grossVnd == Total(Weights(db.checkouts, input.ids)) > 0
    && input.grossVnd - input.deductionVnd == input.netVnd
    && forall b :: b in db.batches ==> b.reference != input.reference
  }

  lemma DueMeans(env: Env, db: Db, i: nat)
    requires i < |db.checkouts|
    ensures Due(env, db, i) <==> CommissionBlockers(db, i) == [] && ProviderBlockers(env, db, db.checkouts[i]) == []
    ensures Due(env, db, i) ==> db.checkouts[i].commission.state.Validated? && db.checkouts[i].commission.user.Some?
    ensures CommissionBlockers(db, i) == [] <==> forall b :: Rank(b) <= 2 ==> !Blocks(env, db, i, b)
  {
    hide ProviderBlockers, CommissionBlockers, ProviderBlocks;
    CommissionBlockersExact(env, db, i);
    ProviderBlockersExact(env, db, db.checkouts[i]);
    ListView.OwnKinds(env, db, i);
    assert CommissionBlockers(db, i) != [] ==> CommissionBlockers(db, i)[0] in CommissionBlockers(db, i);
    assert Due(env, db, i) ==> !Blocks(env, db, i, CommissionNotValidated) && !Blocks(env, db, i, NoAttributedUser);
  }

  lemma DueExact(env: Env, db: Db, ids: seq<nat>)
    requires InRange(ids, |db.checkouts|)
    ensures RowsEligible(db, ids) && ProvidersEligible(env, db, ids) <==> AllDue(env, db, ids)
  {
    hide ProviderBlockers, CommissionBlockers, Due;
    forall k | 0 <= k < |ids|
      ensures Due(env, db, ids[k]) <==>
        CommissionBlockers(db, ids[k]) == [] && ProviderBlockers(env, db, db.checkouts[ids[k]]) == []
    {
      DueMeans(env, db, ids[k]);
    }
  }

  /** Some commission named does not exist, or is blocked by itself. */
  ghost predicate Ineligible(env: Env, db: Db, ids: seq<nat>) {
    exists k :: 0 <= k < |ids| && (ids[k] >= |db.checkouts| || exists b :: Rank(b) <= 2 && Blocks(env, db, ids[k], b))
  }

  lemma IneligibleExact(env: Env, db: Db, ids: seq<nat>)
    ensures Ineligible(env, db, ids) <==> !RowsEligible(db, ids)
  {
    hide Blocks, CommissionBlockers, Rank;
    forall k | 0 <= k < |ids| && ids[k] < |db.checkouts|
      ensures CommissionBlockers(db, ids[k]) == [] <==> forall b :: Rank(b) <= 2 ==> !Blocks(env, db, ids[k], b)
    {
      DueMeans(env, db, ids[k]);
    }
  }

  /** The provider blocks the `n`-th commission and none before it. */
  ghost predicate BlockedAt(env: Env, db: Db, ids: seq<nat>, n: nat, b: Blocker)
    requires InRange(ids, |db.checkouts|)
  {
    && n < |ids| && BlocksFirst(env, db, db.checkouts[ids[n]], b)
    && forall k :: 0 <= k < n ==> forall other :: !ProviderBlocks(env, db, db.checkouts[ids[k]], other)
  }

  lemma {:induction false} FirstBlocked(env: Env, db: Db, ids: seq<nat>) returns (n: nat)
    requires InRange(ids, |db.checkouts|) && !ProvidersEligible(env, db, ids)
    ensures BlockedAt(env, db, ids, n, FirstBlocker(env, db, ids))
    decreases |ids|
  {
    hide ProviderBlockers, ProviderBlocks, BlocksFirst;
    var c := db.checkouts[ids[0]];
    ProviderBlockersExact(env, db, c);
    if ProviderBlockers(env, db, c) != [] {
      FirstListed(env, db, c);
      n := 0;
    } else {
      var later := FirstBlocked(env, db, ids[1..]);
      n := later + 1;
    }
  }

  /** A draft is accepted exactly when all its commissions are due and its amounts fit. */
  lemma CreateExact(env: Env, db: Db, input: Request)
    ensures Create(env, db, input).Ok? <==>
      InRange(input.ids, |db.checkouts|) && AllDue(env, db, input.ids) && Fits(db, input)
    ensures Create(env, db, input).Err? ==>
      var error := Create(env, db, input).error;
      if !Requestable(input.ids) then error == InvalidInput
      else if input.grossVnd - input.deductionVnd != input.netVnd || input.grossVnd == 0
      then error == SettlementTotalsMismatch
      else if Ineligible(env, db, input.ids) then error == CommissionsNotEligible
      else if !AllDue(env, db, input.ids)
      then InRange(input.ids, |db.checkouts|) && error.ProviderBlocked?
           && exists n :: BlockedAt(env, db, input.ids, n, error.blocker)
      else error == if input.grossVnd != Total(Weights(db.checkouts, input.ids))
                    then GrossDiffersFromValidatedCommission else ReferenceTaken
  {
    hide AllDue, ProvidersEligible, CommissionBlockers, FirstBlocker, AllocateFrom, Total, BlockedAt, Ineligible;
    IneligibleExact(env, db, input.ids);
    if InRange(input.ids, |db.checkouts|) {
      DueExact(env, db, input.ids);
      var weights := Weights(db.checkouts, input.ids);
      assert !exists w :: w in weights && w < 0;
      if !ProvidersEligible(env, db, input.ids) { var n := FirstBlocked(env, db, input.ids); }
    }
  }

  /** What an item pays a user, by the state of its commission before payment. */
  function CreditOf(checkouts: seq<Checkout>, user: UserId): SettlementItem -> int {
    (i: SettlementItem) =>
      if i.commission < |checkouts| && checkouts[i.commission].commission.user == Some(user)
         && checkouts[i.commission].commission.cashback.Some?
      then i.netVnd * checkouts[i.commission].commission.cashback.value.userBps / FULL_BPS
      else 0
  }

  /** Every user's balance grows by what the items pay that user. */
  ghost predicate Credits(a: Accounts, b: Accounts, checkouts: seq<Checkout>, items: seq<SettlementItem>) {
    forall u: UserId ::
      && Available(b, u) == Available(a, u) + Sum(items, CreditOf(checkouts, u))
      && Reserved(b, u) == Reserved(a, u)
  }

  lemma FreshCredit(env: Env, db: Db, i: nat)
    requires Core(env, db) && i < |db.checkouts| && db.checkouts[i].commission.state.Validated?
    ensures !HasKey(db.accounts.ledger, SettlementKey(i))
  {
    hide RowsOk, LedgerOk, ReviewIffOpen, OpenIssuesCurrent, OnePaid, UniqueCheckouts, Balanced, Solvent;
    KeyUsedIffWritten(db.checkouts, db.withdrawals, db.accounts.ledger, SettlementKey(i));
  }

  lemma ItemCredits(env: Env, db: Db, item: SettlementItem)
    requires Core(env, db) && ConfirmItem(env, db, item).Ok?
    ensures forall u: UserId ::
      && Available(ConfirmItem(env, db, item).value.accounts, u) ==
           Available(db.accounts, u) + CreditOf(db.checkouts, u)(item)
      && Reserved(ConfirmItem(env, db, item).value.accounts, u) == Reserved(db.accounts, u)
  {
    hide RowsOk, LedgerOk, BooksOk, ReviewIffOpen, OpenIssuesCurrent, OnePaid, UniqueCheckouts, Available, Reserved;
    hide ConfirmItem, Post, ProviderBlockers;
    ConfirmItemExact(env, db, item);
    PayAccounts(env, db, item);
    FreshCredit(env, db, item.commission);
    var c := db.checkouts[item.commission].commission;
    var share := PaidCommission(c, item.netVnd).cashback.value.userAmount;
    PostMoves(db.accounts, CreditPosting(item.commission, c.user.value, share));
  }

  /** Paying one item changes nothing about what the others pay. */
  lemma CreditsKept(env: Env, db: Db, items: seq<SettlementItem>, user: UserId)
    requires Core(env, db) && items != [] && DistinctItems(items) && ConfirmItem(env, db, items[0]).Ok?
    ensures var m := ConfirmItem(env, db, items[0]).value;
      Sum(items[1..], CreditOf(m.checkouts, user)) == Sum(items[1..], CreditOf(db.checkouts, user))
  {
    hide Core, ConfirmItem;
    ConfirmItemExact(env, db, items[0]);
    var m := ConfirmItem(env, db, items[0]).value;
    var rest := items[1..];
    forall k | 0 <= k < |rest| ensures CreditOf(m.checkouts, user)(rest[k]) == CreditOf(db.checkouts, user)(rest[k]) {
      assert rest[k] == items[k + 1];
    }
    SumCongruent(rest, rest, CreditOf(m.checkouts, user), CreditOf(db.checkouts, user));
  }

  lemma {:induction false} ItemsCredit(env: Env, db: Db, items: seq<SettlementItem>)
    requires Core(env, db) && DistinctItems(items) && ConfirmItems(env, db, items).Ok?
    ensures Credits(db.accounts, ConfirmItems(env, db, items).value.accounts, db.checkouts, items)
    ensures ConfirmItems(env, db, items).value.policy == db.policy
    ensures ConfirmItems(env, db, items).value.withdrawals == db.withdrawals
    decreases |items|
  {
    hide Core, ConfirmItem, CreditOf, Available, Reserved;
    if items != [] {
      var m := ConfirmItem(env, db, items[0]).value;
      ConfirmItemExact(env, db, items[0]);
      ConfirmItemKeepsCore(env, db, items[0]);
      ItemCredits(env, db, items[0]);
      ItemsCredit(env, m, items[1..]);
      forall u: UserId
        ensures Available(ConfirmItems(env, db, items).value.accounts, u) ==
          Available(db.accounts, u) + Sum(items, CreditOf(db.checkouts, u))
      {
        CreditsKept(env, db, items, u);
        SumHead(items, CreditOf(db.checkouts, u));
      }
    }
  }

  lemma CoreOf(env: Env, db: Db)
    requires Inv(env, db)
    ensures Core(env, db)
  {
  }

  /** What confirming a draft of distinct, validated commissions does to them and to the users. */
  lemma DraftConfirmed(env: Env, db: Db, id: nat)
    requires Inv(env, db) && id < |db.batches| && db.batches[id].status.Draft? && Confirm(env, db, id).Ok?
    ensures var items := db.batches[id].items; var after := Confirm(env, db, id).value;
      && |after.checkouts| == |db.checkouts|
      && (forall k :: 0 <= k < |items| ==>
            && items[k].commission < |after.checkouts|
            && after.checkouts[items[k].commission].commission.state.Paid?
            && after.checkouts[items[k].commission].commission.settledVnd == items[k].netVnd)
      && Credits(db.accounts, after.accounts, db.checkouts, items)
      && after.batches == db.batches[id := db.batches[id].(status := Confirmed)]
      && after.policy == db.policy && after.withdrawals == db.withdrawals
  {
    hide Core, ConfirmItem, Credits, BatchOk, EachBatchOk;
    CoreOf(env, db);
    ConfirmNeedsFresh(env, db, id);
    var items := db.batches[id].items;
    forall i, j | 0 <= i < j < |items| ensures items[i].commission != items[j].commission {
      assert IsItem(db.batches, id, i) && IsItem(db.batches, id, j);
    }
    ConfirmItemsPay(env, db, items);
    ItemsCredit(env, db, items);
    var b := ConfirmItems(env, db, items).value.checkouts;
    forall k | 0 <= k < |items|
      ensures b[items[k].commission].commission.state.Paid?
      ensures b[items[k].commission].commission.settledVnd == items[k].netVnd
    {
      PaidNow(db.checkouts, b, items, k);
    }
  }

  lemma PaidNow(a: seq<Checkout>, b: seq<Checkout>, items: seq<SettlementItem>, k: nat)
    requires Pays(a, b, items) && k < |items| && items[k].commission < |a|
    requires a[items[k].commission].commission.state.Validated?
    ensures items[k].commission < |b|
    ensures b[items[k].commission].commission.state.Paid?
    ensures b[items[k].commission].commission.settledVnd == items[k].netVnd
  {
    assert PaidItemOk(b, items[k]);
  }

  lemma StillPayable(env: Env, db: Db, drafted: Db, i: nat)
    requires Due(env, db, i) && drafted == db.(batches := drafted.batches)
    ensures i < |db.checkouts| && forall b :: !ProviderBlocks(env, drafted, db.checkouts[i], b)
  {
    hide FullyPaid, Rank;
    forall b ensures !ProviderBlocks(env, drafted, db.checkouts[i], b) {
      assert !Blocks(env, db, i, b);
    }
  }

  /** After any run, a draft of due commissions can be confirmed. */
  lemma DraftedConfirms(env: Env, events: seq<Event>, input: Request) returns (drafted: Db)
    requires InRange(input.ids, |Run(env, EMPTY, events).checkouts|) && env.settlementEnabled
    requires AllDue(env, Run(env, EMPTY, events), input.ids) && Fits(Run(env, EMPTY, events), input)
    ensures var db := Run(env, EMPTY, events);
      && Create(env, db, input) == Ok(drafted)
      && Run(env, EMPTY, events + [CreateEvent(input)]) == drafted
      && |drafted.batches| == |db.batches| + 1 && drafted == db.(batches := drafted.batches)
      && drafted.batches[|db.batches|].status.Draft?
      && Confirm(env, drafted, |db.batches|).Ok?
    ensures Inv(env, drafted)
  {
    hide Run, Due, Fits, Create, Confirm, ProviderBlockers, ProviderBlocks, Inv;
    var db := Run(env, EMPTY, events);
    CreateExact(env, db, input);
    drafted := Create(env, db, input).value;
    CreateAllocates(env, db, input);
    RunAppend(env, EMPTY, events, CreateEvent(input));
    Reachable(env, events + [CreateEvent(input)]);
    var items := drafted.batches[|db.batches|].items;
    forall item | item in items ensures ItemDue(env, drafted, item) {
      var k :| 0 <= k < |items| && items[k] == item;
      StillPayable(env, db, drafted, input.ids[k]);
    }
    ConfirmExact(env, events + [CreateEvent(input)], |db.batches|);
  }

  /**
   * What is due can be paid. After any run, any 1 to 500 distinct due commissions can be drafted with any
   * deduction up to their gross amount, and the draft confirmed. Every one of them becomes PAID for its
   * share of the net amount, and every user's balance grows by exactly that user's shares.
   */
  lemma DueCanBePaid(env: Env, events: seq<Event>, input: Request)
    requires InRange(input.ids, |Run(env, EMPTY, events).checkouts|) && env.settlementEnabled
    requires AllDue(env, Run(env, EMPTY, events), input.ids) && Fits(Run(env, EMPTY, events), input)
    ensures var db := Run(env, EMPTY, events);
      var shares := AllocateNet(input.netVnd, Weights(db.checkouts, input.ids));
      var after := Run(env, EMPTY, events + [CreateEvent(input)] + [ConfirmEvent(|db.batches|)]);
      && shares.Ok?
      && |after.checkouts| == |db.checkouts| && |after.batches| == |db.batches| + 1
      && after.batches[|db.batches|].status.Confirmed? && |after.batches[|db.batches|].items| == |input.ids|
      && (forall k :: 0 <= k < |input.ids| ==>
            && after.checkouts[input.ids[k]].commission.state.Paid?
            && after.checkouts[input.ids[k]].commission.settledVnd == shares.value[k])
      && (forall k :: 0 <= k < |input.ids| ==>
            && after.batches[|db.batches|].items[k].commission == input.ids[k]
            && after.batches[|db.batches|].items[k].netVnd == shares.value[k])
      && Credits(db.accounts, after.accounts, db.checkouts, after.batches[|db.batches|].items)
      && after.policy == db.policy && after.withdrawals == db.withdrawals
  {
    hide Run, AllDue, Fits, Create, Confirm, Credits, Inv, AllocateNet;
    var db := Run(env, EMPTY, events);
    var drafted := DraftedConfirms(env, events, input);
    DraftItems(env, db, input);
    DraftConfirmed(env, drafted, |db.batches|);
    RunAppend(env, EMPTY, events + [CreateEvent(input)], ConfirmEvent(|db.batches|));
  }

  lemma DraftItems(env: Env, db: Db, input: Request)
    requires Create(env, db, input).Ok?
    ensures InRange(input.ids, |db.checkouts|)
    ensures var b := Create(env, db, input).value.batches;
      var shares := AllocateNet(input.netVnd, Weights(db.checkouts, input.ids));
      && |b| == |db.batches| + 1 && shares.Ok? && |b[|db.batches|].items| == |input.ids|
      && (forall k :: 0 <= k < |input.ids| ==>
            b[|db.batches|].items[k].commission == input.ids[k] && b[|db.batches|].items[k].netVnd == shares.value[k])
  {
    hide ProvidersEligible, CommissionBlockers, FirstBlocker, AllocateNet, Total;
  }

  /** A settlement of one commission for all it is worth. */
  function FullRequest(row: Checkout, i: nat, reference: string): Request {
    Request(reference, [i], row.commission.estimatedVnd, 0, row.commission.estimatedVnd)
  }

  lemma SingleTotal<T>(x: T, f: T -> int)
    ensures Sum([x], f) == f(x)
  {
    SumAppend([], x, f);
    assert [] + [x] == [x];
  }

  lemma AloneFits(env: Env, db: Db, i: nat, reference: string)
    requires Due(env, db, i) && db.checkouts[i].commission.estimatedVnd > 0
    requires forall b :: b in db.batches ==> b.reference != reference
    ensures var input := FullRequest(db.checkouts[i], i, reference);
      && InRange(input.ids, |db.checkouts|) && AllDue(env, db, input.ids) && Fits(db, input)
      && AllocateNet(input.netVnd, Weights(db.checkouts, input.ids)).Ok?
      && AllocateNet(input.netVnd, Weights(db.checkouts, input.ids)).value == [input.netVnd]
  {
    hide ProviderBlockers, AllocateFrom, Blocks;
    DueMeans(env, db, i);
    var n: int := db.checkouts[i].commission.estimatedVnd;
    var weights := Weights(db.checkouts, [i]);
    assert weights == [n];
    SingleTotal<int>(n, Value());
    assert AllocateNet(n, weights).Ok?;
    AllocationExact(n, weights);
    var r := AllocateNet(n, weights).value;
    SingleTotal<int>(r[0], Value());
    assert r == [r[0]];
  }

  /** A single due commission worth something can be paid in full. */
  lemma DueAloneCanBePaid(env: Env, events: seq<Event>, i: nat, reference: string)
    requires Due(env, Run(env, EMPTY, events), i) && env.settlementEnabled
    requires Run(env, EMPTY, events).checkouts[i].commission.estimatedVnd > 0
    requires forall b :: b in Run(env, EMPTY, events).batches ==> b.reference != reference
    ensures var db := Run(env, EMPTY, events); var c := db.checkouts[i].commission;
      var draft := CreateEvent(FullRequest(db.checkouts[i], i, reference)); var confirm := ConfirmEvent(|db.batches|);
      var after := Run(env, EMPTY, events + [draft] + [confirm]);
      && c.user.Some? && c.cashback.Some?
      && |after.checkouts| == |db.checkouts| && after.checkouts[i].commission.state.Paid?
      && after.policy == db.policy && after.withdrawals == db.withdrawals
      && Available(after.accounts, c.user.value) ==
           Available(db.accounts, c.user.value) + c.estimatedVnd * c.cashback.value.userBps / FULL_BPS
      && Reserved(after.accounts, c.user.value) == Reserved(db.accounts, c.user.value)
  {
    hide Run, ProviderBlockers, Blocks, AllDue, Fits, InSettlement, AllocateNet, Available, Reserved;
    var db := Run(env, EMPTY, events);
    var input := FullRequest(db.checkouts[i], i, reference);
    CommissionCoherence(env, events, i);
    DueMeans(env, db, i);
    AloneFits(env, db, i, reference);
    DueCanBePaid(env, events, input);
    var after := Run(env, EMPTY, events + [CreateEvent(input)] + [ConfirmEvent(|db.batches|)]);
    var items := after.batches[|db.batches|].items;
    assert items == [items[0]] && input.ids[0] == i;
    SingleTotal(items[0], CreditOf(db.checkouts, db.checkouts[i].commission.user.value));
  }

  // ---------- Withdrawals ----------

  /** The three requests that take an amount out of the system. */
  function Payout(request: WithdrawalRequest, id: nat): seq<Event> {
    [WithdrawEvent(request), TransitionEvent(id, WithdrawalStatus.Processing),
     TransitionEvent(id, WithdrawalStatus.Completed)]
  }

  lemma RunThree(env: Env, db: Db, events: seq<Event>, a: Event, b: Event, c: Event)
    ensures Run(env, db, events + [a, b, c]) == Step(env, Step(env, Step(env, Run(env, db, events), a), b), c)
  {
    hide Step, Run;
    RunAppend(env, db, events, a);
    RunAppend(env, db, events + [a], b);
    RunAppend(env, db, events + [a] + [b], c);
    assert events + [a, b, c] == events + [a] + [b] + [c];
  }

  /**
   * Covered money can be withdrawn: after any run, a new request that reaches the minimum, has an approved
   * bank and is covered goes through to COMPLETED, and takes exactly its amount off its user's balance.
   */
  lemma CoveredCanBeWithdrawn(env: Env, events: seq<Event>, request: WithdrawalRequest)
    requires env.withdrawalsEnabled && request.bankApproved
    requires var db := Run(env, EMPTY, events);
      && FindWithdrawal(db.withdrawals, request.user, request.key).None?
      && request.amount >= PolicyOr(db.policy).minWithdrawal
      && Available(db.accounts, request.user) >= request.amount
    ensures var db := Run(env, EMPTY, events); var after := Run(env, EMPTY, events + Payout(request, |db.withdrawals|));
      && after.checkouts == db.checkouts
      && after.withdrawals == db.withdrawals +
           [Withdrawal(request.user, request.key, request.bankId, request.amount, WithdrawalStatus.Completed)]
      && Effects.Moves(db.accounts, after.accounts, request.user, 0 - request.amount, 0)
  {
    hide Run, Step, Inv, Effects.Moves, CreateWithdrawal, Transition, Available, Reserved;
    var db := Run(env, EMPTY, events);
    var id := |db.withdrawals|;
    Reachable(env, events);
    CreateWithdrawalExact(env, events, request);
    CoreOf(env, db);
    RunThree(env, EMPTY, events, WithdrawEvent(request), TransitionEvent(id, WithdrawalStatus.Processing),
             TransitionEvent(id, WithdrawalStatus.Completed));
    var after := PendingCompletes(env, db, request);
    WithdrawalSteps(env, db, request, id, WithdrawalStatus.Processing);
    var requested := CreateWithdrawal(env, db, request).value;
    WithdrawalSteps(env, requested, request, id, WithdrawalStatus.Processing);
    var processing := Transition(requested, id, WithdrawalStatus.Processing).value;
    WithdrawalSteps(env, processing, request, id, WithdrawalStatus.Completed);
  }

  lemma WithdrawalSteps(env: Env, db: Db, request: WithdrawalRequest, id: nat, to: WithdrawalStatus)
    ensures CreateWithdrawal(env, db, request).Ok? ==>
      Step(env, db, WithdrawEvent(request)) == CreateWithdrawal(env, db, request).value
    ensures Transition(db, id, to).Ok? ==> Step(env, db, TransitionEvent(id, to)) == Transition(db, id, to).value
  {
    hide CreateWithdrawal, Transition;
  }

  lemma PendingCompletes(env: Env, db: Db, request: WithdrawalRequest) returns (after: Db)
    requires Core(env, db) && CreateWithdrawal(env, db, request).Ok?
    requires FindWithdrawal(db.withdrawals, request.user, request.key).None?
    requires Available(db.accounts, request.user) >= request.amount
    ensures var id := |db.withdrawals|; var requested := CreateWithdrawal(env, db, request).value;
      && Transition(requested, id, WithdrawalStatus.Processing).Ok?
      && var processing := Transition(requested, id, WithdrawalStatus.Processing).value;
        Transition(processing, id, WithdrawalStatus.Completed) == Ok(after)
    ensures after.checkouts == db.checkouts
    ensures after.withdrawals == db.withdrawals +
      [Withdrawal(request.user, request.key, request.bankId, request.amount, WithdrawalStatus.Completed)]
    ensures Effects.Moves(db.accounts, after.accounts, request.user, 0 - request.amount, 0)
  {
    hide Core, CreateWithdrawal, Transition, Available, Reserved;
    var id := |db.withdrawals|;
    RequestMoves(env, db, request);
    CreateWithdrawalKeepsCore(env, db, request);
    var requested := CreateWithdrawal(env, db, request).value;
    MayProcess(env, requested, id);
    TransitionMoves(env, requested, id, WithdrawalStatus.Processing);
    TransitionKeepsCore(env, requested, id, WithdrawalStatus.Processing);
    var processing := Transition(requested, id, WithdrawalStatus.Processing).value;
    MayComplete(env, processing, id);
    TransitionMoves(env, processing, id, WithdrawalStatus.Completed);
    after := Transition(processing, id, WithdrawalStatus.Completed).value;
  }

  lemma MayProcess(env: Env, db: Db, id: nat)
    requires Core(env, db) && id < |db.withdrawals| && db.withdrawals[id].status.Pending?
    requires Available(db.accounts, db.withdrawals[id].user) >= 0
    ensures Transition(db, id, WithdrawalStatus.Processing).Ok?
  {
    hide Core, InDebt;
    DebtIsNegative(env, db, id);
  }

  lemma MayComplete(env: Env, db: Db, id: nat)
    requires Core(env, db) && id < |db.withdrawals| && db.withdrawals[id].status.Processing?
    ensures Transition(db, id, WithdrawalStatus.Completed).Ok?
  {
    hide Core, Post;
    FinalizePosts(env, db, id, WithdrawalStatus.Completed);
  }
}
