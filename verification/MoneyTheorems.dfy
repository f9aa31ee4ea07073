/** What the books say in every reachable database: conservation, solvency, exactly-once entries. */
module MoneyTheorems {
  import opened Prelude
  import opened Money
  import opened Payment
  import opened Wallets
  import opened Tables
  import opened Settlement
  import opened Withdrawals
  import opened Invariants
  import opened Books
  import opened CoreSteps
  import opened Runs

  /** The users' share of commissions that are PAID now. */
  function PaidUserVnd(): Checkout -> int {
    (r: Checkout) =>
      if r.commission.state.Paid? && r.commission.cashback.Some? then r.commission.cashback.value.userAmount else 0
  }

  // ---------- Conservation ----------

  lemma PaidIsCreditedMinusReversed(env: Env, checkouts: seq<Checkout>)
    requires RowsOk(env, checkouts)
    ensures Sum(checkouts, CreditedTo(None)) - Sum(checkouts, ReversedFrom(None)) == Sum(checkouts, PaidUserVnd())
    ensures Sum(checkouts, SettledVnd()) == Sum(checkouts, SharesVnd())
  {
    hide SourceOk, PaymentBlockers;
    forall i | 0 <= i < |checkouts|
      ensures CreditedTo(None)(checkouts[i]) == ReversedFrom(None)(checkouts[i]) + PaidUserVnd()(checkouts[i])
      ensures SettledVnd()(checkouts[i]) == SharesVnd()(checkouts[i])
    {
      assert RowOk(env, checkouts[i]);
    }
    SumPlus(checkouts, ReversedFrom(None), PaidUserVnd(), CreditedTo(None));
    SumCongruent(checkouts, checkouts, SettledVnd(), SharesVnd());
  }

  lemma CommittedIsInFlightPlusCompleted(ws: seq<Withdrawal>, who: Option<UserId>)
    ensures Sum(ws, CommittedBy(who)) == Sum(ws, InFlightOf(who)) + Sum(ws, CompletedOf(who))
  {
    SumPlus(ws, InFlightOf(who), CompletedOf(who), CommittedBy(who));
  }

  /**
   * The ledger is the balance. Every wallet holds the sums of its entries, every entry records the
   * balances right after it, a reserve is never negative, and the operations page always finds the ledger
   * and the cached balances equal in total.
   */
  lemma LedgerIsBalance(env: Env, events: seq<Event>)
    ensures var acc := Run(env, EMPTY, events).accounts;
      && (forall j :: 0 <= j < |acc.wallets| ==>
            && acc.wallets[j].available == Sum(acc.ledger, AvailableOf(Some(acc.wallets[j].user)))
            && acc.wallets[j].reserved == Sum(acc.ledger, ReservedOf(Some(acc.wallets[j].user))) >= 0)
      && (forall k :: 0 <= k < |acc.ledger| ==>
            && HasWallet(acc.wallets, acc.ledger[k].user)
            && acc.ledger[k].availableAfter == Sum(acc.ledger[..k + 1], AvailableOf(Some(acc.ledger[k].user)))
            && acc.ledger[k].reservedAfter == Sum(acc.ledger[..k + 1], ReservedOf(Some(acc.ledger[k].user))))
      && Sum(acc.ledger, AvailableOf(None)) == Sum(acc.wallets, WalletAvailable())
      && Sum(acc.ledger, ReservedOf(None)) == Sum(acc.wallets, WalletReserved())
  {
    hide Run, RowsOk, BooksOk, ReviewIffOpen, OpenIssuesCurrent, UniqueCheckouts, OnePaid, BatchesOk, Sum;
    Reachable(env, events);
    var acc := Run(env, EMPTY, events).accounts;
    forall j | 0 <= j < |acc.wallets| ensures Cached(acc.wallets[j], acc.ledger) {}
    forall k | 0 <= k < |acc.ledger|
      ensures HasWallet(acc.wallets, acc.ledger[k].user)
      ensures acc.ledger[k].availableAfter == Sum(acc.ledger[..k + 1], AvailableOf(Some(acc.ledger[k].user)))
      ensures acc.ledger[k].reservedAfter == Sum(acc.ledger[..k + 1], ReservedOf(Some(acc.ledger[k].user)))
    {
      assert Running(acc.ledger, k);
    }
  }

  /**
   * Conservation. In every reachable database all wallets together hold the users' share of the
   * commissions that are paid now, plus adjustments, minus completed withdrawals; and the net amount of
   * the confirmed batches is the amount settled, which is the sum of both shares, reversed or not.
   */
  lemma Conservation(env: Env, events: seq<Event>)
    ensures var db := Run(env, EMPTY, events);
      && Sum(db.accounts.wallets, WalletAvailable()) + Sum(db.accounts.wallets, WalletReserved()) ==
           Sum(db.checkouts, PaidUserVnd()) + Sum(db.accounts.ledger, AdjustmentsOf(None))
           - Sum(db.withdrawals, CompletedOf(None))
      && Sum(db.batches, ConfirmedNet()) == Sum(db.checkouts, SettledVnd()) == Sum(db.checkouts, SharesVnd())
  {
    hide Run, RowsOk, ReviewIffOpen, OpenIssuesCurrent, UniqueCheckouts, OnePaid, EntriesOk, Backed, Running, Cached;
    Reachable(env, events);
    var db := Run(env, EMPTY, events);
    PaidIsCreditedMinusReversed(env, db.checkouts);
    CommittedIsInFlightPlusCompleted(db.withdrawals, None);
    assert Balanced(db.checkouts, db.withdrawals, db.accounts.ledger, None);
  }

  // ---------- Rounding ----------

  /** The cashback stored for an item's commission. */
  function CashbackAt(checkouts: seq<Checkout>, item: SettlementItem): Option<Cashback> {
    if item.commission < |checkouts| then checkouts[item.commission].commission.cashback else None
  }

  function StoredUserShare(checkouts: seq<Checkout>): SettlementItem -> int {
    (i: SettlementItem) => if CashbackAt(checkouts, i).Some? then CashbackAt(checkouts, i).value.userAmount else 0
  }

  function StoredPlatformShare(checkouts: seq<Checkout>): SettlementItem -> int {
    (i: SettlementItem) => if CashbackAt(checkouts, i).Some? then CashbackAt(checkouts, i).value.platformAmount else 0
  }

  /** An item's net amount times its commission's basis points: its exact user share, scaled. */
  function ScaledUserShare(checkouts: seq<Checkout>): SettlementItem -> int {
    (i: SettlementItem) =>
      if CashbackAt(checkouts, i).Some? then i.netVnd * CashbackAt(checkouts, i).value.userBps else 0
  }

  /** A settled item was split by the basis points of its commission. */
  lemma SettledItemSplit(env: Env, checkouts: seq<Checkout>, item: SettlementItem)
    requires RowsOk(env, checkouts) && PaidItemOk(checkouts, item)
    ensures CashbackAt(checkouts, item).Some?
    ensures var c := CashbackAt(checkouts, item).value;
      SplitCashback(item.netVnd, c.userBps) == Ok(Split(c.userAmount, c.platformAmount))
  {
    hide SourceOk, PaymentBlockers, SplitCashback;
    assert RowOk(env, checkouts[item.commission]);
  }

  /**
   * In every confirmed batch of a reachable database, the shares stored for its commissions add up to its
   * net amount, reversed or not, and rounding costs the users less than one VND an item.
   */
  lemma BatchRounding(env: Env, events: seq<Event>, b: nat)
    requires b < |Run(env, EMPTY, events).batches| && Run(env, EMPTY, events).batches[b].status.Confirmed?
    ensures var db := Run(env, EMPTY, events); var items := db.batches[b].items;
      && Sum(items, StoredUserShare(db.checkouts)) + Sum(items, StoredPlatformShare(db.checkouts)) ==
           db.batches[b].netVnd
      && FULL_BPS * Sum(items, StoredUserShare(db.checkouts)) <= Sum(items, ScaledUserShare(db.checkouts))
      && Sum(items, ScaledUserShare(db.checkouts)) < FULL_BPS * (Sum(items, StoredUserShare(db.checkouts)) + |items|)
  {
    hide Run, RowsOk, LedgerOk, BooksOk, ReviewIffOpen, OpenIssuesCurrent, UniqueCheckouts, OnePaid, PaidItemOk, Sum;
    Reachable(env, events);
    var db := Run(env, EMPTY, events);
    assert BatchOk(db.checkouts, db.batches[b]);
    ItemsRounding(env, db.checkouts, db.batches[b].items);
  }

  lemma ItemsRounding(env: Env, checkouts: seq<Checkout>, items: seq<SettlementItem>)
    requires RowsOk(env, checkouts) && forall k :: 0 <= k < |items| ==> PaidItemOk(checkouts, items[k])
    ensures Sum(items, StoredUserShare(checkouts)) + Sum(items, StoredPlatformShare(checkouts)) == Sum(items, NetOf())
    ensures FULL_BPS * Sum(items, StoredUserShare(checkouts)) <= Sum(items, ScaledUserShare(checkouts))
    ensures Sum(items, ScaledUserShare(checkouts)) <=
      FULL_BPS * Sum(items, StoredUserShare(checkouts)) + (FULL_BPS - 1) * |items|
  {
    hide RowsOk, PaidItemOk, SplitCashback, Sum;
    forall k | 0 <= k < |items|
      ensures CashbackAt(checkouts, items[k]).Some?
      ensures var c := CashbackAt(checkouts, items[k]).value;
        SplitCashback(items[k].netVnd, c.userBps) == Ok(Split(c.userAmount, c.platformAmount))
    {
      SettledItemSplit(env, checkouts, items[k]);
    }
    var pairs: seq<(int, int)> := seq(|items|, k requires 0 <= k < |items| =>
      (items[k].netVnd, CashbackAt(checkouts, items[k]).value.userBps));
    SumCongruent(items, pairs, StoredUserShare(checkouts), UserShare());
    SumCongruent(items, pairs, ScaledUserShare(checkouts), ScaledShare());
    SumPlus(items, StoredUserShare(checkouts), StoredPlatformShare(checkouts), NetOf());
    SplitsAlmostExact(pairs);
  }

  // ---------- Solvency ----------

  /** A user's completed and pending withdrawals never exceed the cashback and adjustments ever given. */
  lemma UserSolvency(env: Env, events: seq<Event>, user: UserId)
    ensures var db := Run(env, EMPTY, events);
      Sum(db.withdrawals, CompletedOf(Some(user))) + Sum(db.withdrawals, InFlightOf(Some(user))) <=
        Sum(db.checkouts, CreditedTo(Some(user))) + Sum(db.accounts.ledger, PositiveAdjustmentsOf(Some(user)))
  {
    hide Run, RowsOk, LedgerOk, ReviewIffOpen, OpenIssuesCurrent, UniqueCheckouts, OnePaid, EntriesOk, Backed;
    hide BatchesOk;
    Reachable(env, events);
    var db := Run(env, EMPTY, events);
    CommittedIsInFlightPlusCompleted(db.withdrawals, Some(user));
    assert Solvent(db.checkouts, db.withdrawals, db.accounts.ledger, user);
  }

  function NegativeAdjustmentsOf(who: Option<UserId>): Entry -> int {
    (e: Entry) => if Concerns(who, e.user) && e.key.AdjustmentKey? && e.available < 0 then 0 - e.available else 0
  }

  /** Withdrawals alone never create debt: a negative balance is covered by reversals and deductions. */
  lemma DebtIsClawback(env: Env, events: seq<Event>, user: UserId)
    ensures var db := Run(env, EMPTY, events);
      Available(db.accounts, user) >=
        0 - Sum(db.checkouts, ReversedFrom(Some(user))) - Sum(db.accounts.ledger, NegativeAdjustmentsOf(Some(user)))
  {
    hide Run, RowsOk, LedgerOk, ReviewIffOpen, OpenIssuesCurrent, UniqueCheckouts, OnePaid, EntriesOk, Backed;
    hide BatchesOk;
    Reachable(env, events);
    var db := Run(env, EMPTY, events);
    var who := Some(user);
    SumPlus(db.accounts.ledger, AdjustmentsOf(who), NegativeAdjustmentsOf(who), PositiveAdjustmentsOf(who));
    assert Balanced(db.checkouts, db.withdrawals, db.accounts.ledger, who);
    assert Solvent(db.checkouts, db.withdrawals, db.accounts.ledger, user);
  }

  /** The totals of each user, one weight for each user. */
  function PerUser<T>(rows: seq<T>, family: Option<UserId> -> T -> int): UserId -> int {
    (u: UserId) => Sum(rows, family(Some(u)))
  }

  function Indicator(user: UserId, weight: int): UserId -> int {
    (u: UserId) => if u == user then weight else 0
  }

  lemma {:induction false} IndicatorSum(users: seq<UserId>, user: UserId, weight: int)
    requires Distinct(users)
    ensures Sum(users, Indicator(user, weight)) == if user in users then weight else 0
    decreases |users|
  {
    if |users| > 0 {
      var n := |users| - 1;
      IndicatorSum(users[..n], user, weight);
      assert users == users[..n] + [users[n]];
      assert users[n] !in users[..n];
    }
  }

  lemma {:induction false} ZeroPerUser(users: seq<UserId>, f: UserId -> int)
    requires forall u: UserId :: f(u) == 0
    ensures Sum(users, f) == 0
    decreases |users|
  {
    if |users| > 0 { ZeroPerUser(users[..|users| - 1], f); }
  }

  /** A total over all users is the sum of the users' totals. */
  lemma {:induction false} Partition<T(!new)>(rows: seq<T>, users: seq<UserId>, family: Option<UserId> -> T -> int,
        owner: T -> UserId)
    requires Distinct(users)
    requires forall r, u :: family(Some(u))(r) == if u == owner(r) then family(None)(r) else 0
    requires forall r :: r in rows ==> owner(r) in users || family(None)(r) == 0
    ensures Sum(users, PerUser(rows, family)) == Sum(rows, family(None))
    decreases |rows|
  {
    if |rows| == 0 {
      forall u: UserId ensures PerUser(rows, family)(u) == 0 {
        assert Sum(rows, family(Some(u))) == 0;
      }
      ZeroPerUser(users, PerUser(rows, family));
    } else {
      var n := |rows| - 1;
      var r := rows[n];
      assert forall x :: x in rows[..n] ==> x in rows;
      Partition(rows[..n], users, family, owner);
      assert r in rows;
      IndicatorSum(users, owner(r), family(None)(r));
      SumPlus(users, PerUser(rows[..n], family), Indicator(owner(r), family(None)(r)), PerUser(rows, family));
    }
  }

  /** The users that have a wallet. */
  function Users(wallets: seq<Wallet>): (u: seq<UserId>)
    ensures |u| == |wallets|
    ensures forall i :: 0 <= i < |u| ==> u[i] == wallets[i].user
  {
    seq(|wallets|, i requires 0 <= i < |wallets| => wallets[i].user)
  }

  lemma UsersDistinct(wallets: seq<Wallet>)
    requires UniqueWallets(wallets)
    ensures Distinct(Users(wallets))
  {
  }

  lemma EntryHasUser(acc: Accounts, key: Key, user: UserId)
    requires LedgerOk(acc) && HasKey(acc.ledger, key)
    requires forall k :: 0 <= k < |acc.ledger| && acc.ledger[k].key == key ==> acc.ledger[k].user == user
    ensures user in Users(acc.wallets)
  {
    hide Cached, Running, Sum;
    var k :| 0 <= k < |acc.ledger| && acc.ledger[k].key == key;
    assert HasWallet(acc.wallets, acc.ledger[k].user);
    var i :| 0 <= i < |acc.wallets| && acc.wallets[i].user == user;
    assert Users(acc.wallets)[i] == user;
  }

  function WithdrawalOwner(): Withdrawal -> UserId { (w: Withdrawal) => w.user }

  function EntryOwner(): Entry -> UserId { (e: Entry) => e.user }

  function CheckoutOwner(): Checkout -> UserId {
    (r: Checkout) => if r.commission.user.Some? then r.commission.user.value else ""
  }

  lemma WithdrawalsByUser(db: Db)
    requires LedgerOk(db.accounts) && BooksOk(db.checkouts, db.withdrawals, db.accounts.ledger)
    ensures Sum(Users(db.accounts.wallets), PerUser(db.withdrawals, CommittedBy)) ==
      Sum(db.withdrawals, CommittedBy(None))
  {
    var users := Users(db.accounts.wallets);
    UsersDistinct(db.accounts.wallets);
    forall w | w in db.withdrawals ensures WithdrawalOwner()(w) in users {
      var i :| 0 <= i < |db.withdrawals| && db.withdrawals[i] == w;
      forall k | 0 <= k < |db.accounts.ledger| && db.accounts.ledger[k].key == ReserveKey(i)
        ensures db.accounts.ledger[k].user == w.user
      {
        assert EntryOk(db.checkouts, db.withdrawals, db.accounts.ledger[k]);
      }
      EntryHasUser(db.accounts, ReserveKey(i), w.user);
    }
    hide BooksOk, LedgerOk;
    Partition(db.withdrawals, users, CommittedBy, WithdrawalOwner());
  }

  lemma CreditsByUser(db: Db)
    requires LedgerOk(db.accounts) && BooksOk(db.checkouts, db.withdrawals, db.accounts.ledger)
    ensures Sum(Users(db.accounts.wallets), PerUser(db.checkouts, CreditedTo)) == Sum(db.checkouts, CreditedTo(None))
  {
    var users := Users(db.accounts.wallets);
    UsersDistinct(db.accounts.wallets);
    forall r | r in db.checkouts ensures CheckoutOwner()(r) in users || CreditedTo(None)(r) == 0 {
      var i :| 0 <= i < |db.checkouts| && db.checkouts[i] == r;
      if Owns(None, StakeOf(r)) {
        forall k | 0 <= k < |db.accounts.ledger| && db.accounts.ledger[k].key == SettlementKey(i)
          ensures db.accounts.ledger[k].user == r.commission.user.value
        {
          assert EntryOk(db.checkouts, db.withdrawals, db.accounts.ledger[k]);
        }
        EntryHasUser(db.accounts, SettlementKey(i), r.commission.user.value);
      }
    }
    hide BooksOk, LedgerOk;
    Partition(db.checkouts, users, CreditedTo, CheckoutOwner());
  }

  lemma AdjustmentsByUser(acc: Accounts)
    requires LedgerOk(acc)
    ensures Sum(Users(acc.wallets), PerUser(acc.ledger, PositiveAdjustmentsOf)) ==
      Sum(acc.ledger, PositiveAdjustmentsOf(None))
  {
    var users := Users(acc.wallets);
    UsersDistinct(acc.wallets);
    forall e | e in acc.ledger ensures EntryOwner()(e) in users {
      var k :| 0 <= k < |acc.ledger| && acc.ledger[k] == e;
      assert HasWallet(acc.wallets, e.user);
      var i :| 0 <= i < |acc.wallets| && acc.wallets[i].user == e.user;
      assert users[i] == e.user;
    }
    hide LedgerOk;
    Partition(acc.ledger, users, PositiveAdjustmentsOf, EntryOwner());
  }

  /** All cashback ever credited is within the raw commissions it was paid from. */
  lemma CreditsWithinRaw(env: Env, db: Db)
    requires Inv(env, db)
    ensures Sum(db.checkouts, CreditedTo(None)) <= Sum(db.checkouts, RawPaid())
  {
    hide SourceOk, PaymentBlockers, LedgerOk, BooksOk, ReviewIffOpen, OpenIssuesCurrent, UniqueItems;
    forall i | 0 <= i < |db.checkouts| ensures EstimatedPaid()(db.checkouts[i]) <= RawPaid()(db.checkouts[i]) {
      assert RowOk(env, db.checkouts[i]);
    }
    forall b | 0 <= b < |db.batches| ensures ConfirmedNet()(db.batches[b]) <= ConfirmedGross()(db.batches[b]) {
      assert BatchOk(db.checkouts, db.batches[b]);
    }
    SumMonotone(db.checkouts, CreditedTo(None), SharesVnd());
    PaidIsCreditedMinusReversed(env, db.checkouts);
    SumMonotone(db.batches, ConfirmedNet(), ConfirmedGross());
    SumMonotone(db.checkouts, EstimatedPaid(), RawPaid());
  }

  /**
   * Solvency. Over all users, completed and pending withdrawals never exceed the raw amounts of all
   * commissions ever paid plus the positive adjustments.
   */
  lemma GlobalSolvency(env: Env, events: seq<Event>)
    ensures var db := Run(env, EMPTY, events);
      Sum(db.withdrawals, CompletedOf(None)) + Sum(db.withdrawals, InFlightOf(None)) <=
        Sum(db.checkouts, RawPaid()) + Sum(db.accounts.ledger, PositiveAdjustmentsOf(None))
  {
    hide Run, RowsOk, LedgerOk, ReviewIffOpen, OpenIssuesCurrent, UniqueCheckouts, OnePaid, EntriesOk, Backed;
    hide BatchesOk;
    Reachable(env, events);
    var db := Run(env, EMPTY, events);
    var users := Users(db.accounts.wallets);
    WithdrawalsByUser(db);
    CreditsByUser(db);
    AdjustmentsByUser(db.accounts);
    CreditsWithinRaw(env, db);
    CommittedIsInFlightPlusCompleted(db.withdrawals, None);
    var given := (u: UserId) =>
      PerUser(db.checkouts, CreditedTo)(u) + PerUser(db.accounts.ledger, PositiveAdjustmentsOf)(u);
    SumPlus(users, PerUser(db.checkouts, CreditedTo), PerUser(db.accounts.ledger, PositiveAdjustmentsOf), given);
    forall i | 0 <= i < |users| ensures PerUser(db.withdrawals, CommittedBy)(users[i]) <= given(users[i]) {
      assert Solvent(db.checkouts, db.withdrawals, db.accounts.ledger, users[i]);
    }
    SumMonotone(users, PerUser(db.withdrawals, CommittedBy), given);
  }

  // ---------- Exactly-once entries ----------

  function KeyCount(key: Key): Entry -> int {
    (e: Entry) => if e.key == key then 1 else 0
  }

  lemma {:induction false} KeyCounted(ledger: seq<Entry>, key: Key)
    requires UniqueEntries(ledger)
    ensures Sum(ledger, KeyCount(key)) == if HasKey(ledger, key) then 1 else 0
    decreases |ledger|
  {
    if |ledger| > 0 {
      var n := |ledger| - 1;
      KeyCounted(ledger[..n], key);
      assert ledger == ledger[..n] + [ledger[n]];
      KeysAppend(ledger[..n], ledger[n]);
      if HasKey(ledger, key) && ledger[n].key != key {
        var k :| 0 <= k < |ledger| && ledger[k].key == key;
        assert ledger[..n][k].key == key;
      }
    }
  }

  /** Ledger entries of a kind that refer to a row. */
  function KindCount(kinds: set<Kind>, reference: Reference): Entry -> int {
    (e: Entry) => if e.kind in kinds && e.reference == reference then 1 else 0
  }

  /** The kind and reference of an entry say the same as its key. */
  lemma KindIsKey(checkouts: seq<Checkout>, ws: seq<Withdrawal>, ledger: seq<Entry>, key: Key, kinds: set<Kind>,
        reference: Reference)
    requires EntriesOk(checkouts, ws, ledger)
    requires match key
      case SettlementKey(i) => kinds == {CashbackCredit} && reference == CommissionRef(i)
      case ReversalKey(i) => kinds == {CashbackReversal} && reference == CommissionRef(i)
      case ReserveKey(w) => kinds == {WithdrawalReserve} && reference == WithdrawalRef(w)
      case FinalizeKey(w) => kinds == {WithdrawalComplete, WithdrawalRelease} && reference == WithdrawalRef(w)
      case AdjustmentKey(t) => kinds == {ManualAdjustment} && reference == AdjustmentRef(t)
    ensures Sum(ledger, KindCount(kinds, reference)) == Sum(ledger, KeyCount(key))
  {
    forall k | 0 <= k < |ledger| ensures KindCount(kinds, reference)(ledger[k]) == KeyCount(key)(ledger[k]) {
      assert EntryOk(checkouts, ws, ledger[k]);
    }
    SumCongruent(ledger, ledger, KindCount(kinds, reference), KeyCount(key));
  }

  lemma KeyCountIffWritten(db: Db, key: Key)
    requires LedgerOk(db.accounts) && BooksOk(db.checkouts, db.withdrawals, db.accounts.ledger)
    requires !key.AdjustmentKey?
    ensures Sum(db.accounts.ledger, KeyCount(key)) ==
      if Written(db.checkouts, db.withdrawals, key) then 1 else 0
  {
    hide Running, Cached;
    KeyUsedIffWritten(db.checkouts, db.withdrawals, db.accounts.ledger, key);
    KeyCounted(db.accounts.ledger, key);
  }

  /**
   * Exactly once. A commission has one credit entry if it was ever paid and none otherwise, and one
   * reversal entry if it is reversed and none otherwise; the reversal takes back the credited amount from
   * the same user.
   */
  lemma ExactlyOnceCredit(env: Env, events: seq<Event>, i: nat)
    requires i < |Run(env, EMPTY, events).checkouts|
    ensures var db := Run(env, EMPTY, events); var c := db.checkouts[i].commission;
      && Sum(db.accounts.ledger, KindCount({CashbackCredit}, CommissionRef(i))) == (if EverPaid(c) then 1 else 0)
      && Sum(db.accounts.ledger, KindCount({CashbackReversal}, CommissionRef(i))) ==
           (if c.state.Reversed? then 1 else 0)
      && (EverPaid(c) ==> c.user.Some? && c.cashback.Some?)
      && (forall e :: e in db.accounts.ledger && e.key == SettlementKey(i) ==>
            EverPaid(c) && Some(e.user) == c.user && e.available == c.cashback.value.userAmount && e.reserved == 0)
      && (forall e :: e in db.accounts.ledger && e.key == ReversalKey(i) ==>
            && c.state.Reversed? && Some(e.user) == c.user
            && e.available == 0 - c.cashback.value.userAmount && e.reserved == 0)
  {
    hide Run, LedgerOk, ReviewIffOpen, OpenIssuesCurrent, UniqueCheckouts, OnePaid, BatchesOk, SourceOk;
    hide PaymentBlockers, Balanced, Solvent;
    Reachable(env, events);
    var db := Run(env, EMPTY, events);
    assert RowOk(env, db.checkouts[i]);
    KindIsKey(db.checkouts, db.withdrawals, db.accounts.ledger, SettlementKey(i), {CashbackCredit}, CommissionRef(i));
    KindIsKey(db.checkouts, db.withdrawals, db.accounts.ledger, ReversalKey(i), {CashbackReversal}, CommissionRef(i));
    KeyCountIffWritten(db, SettlementKey(i));
    KeyCountIffWritten(db, ReversalKey(i));
    forall e | e in db.accounts.ledger ensures EntryOk(db.checkouts, db.withdrawals, e) {
      var k :| 0 <= k < |db.accounts.ledger| && db.accounts.ledger[k] == e;
    }
  }

  /**
   * Reserved is the work in flight: each wallet reserves exactly its user's unfinished withdrawals. Each
   * withdrawal has one reserve entry, and one final entry exactly when it is finished.
   */
  lemma ReservedIsWorkInFlight(env: Env, events: seq<Event>)
    ensures var db := Run(env, EMPTY, events);
      && (forall j :: 0 <= j < |db.accounts.wallets| ==>
            db.accounts.wallets[j].reserved == Sum(db.withdrawals, InFlightOf(Some(db.accounts.wallets[j].user))))
      && (forall w :: 0 <= w < |db.withdrawals| ==>
            && Sum(db.accounts.ledger, KindCount({WithdrawalReserve}, WithdrawalRef(w))) == 1
            && Sum(db.accounts.ledger, KindCount({WithdrawalComplete, WithdrawalRelease}, WithdrawalRef(w))) ==
                 (if Terminal(db.withdrawals[w].status) then 1 else 0))
  {
    hide Run, RowsOk, ReviewIffOpen, OpenIssuesCurrent, UniqueCheckouts, OnePaid, BatchesOk, Running, Solvent;
    Reachable(env, events);
    var db := Run(env, EMPTY, events);
    forall j | 0 <= j < |db.accounts.wallets|
      ensures db.accounts.wallets[j].reserved == Sum(db.withdrawals, InFlightOf(Some(db.accounts.wallets[j].user)))
    {
      assert Cached(db.accounts.wallets[j], db.accounts.ledger);
      assert Balanced(db.checkouts, db.withdrawals, db.accounts.ledger, Some(db.accounts.wallets[j].user));
    }
    hide LedgerOk, Balanced;
    forall w | 0 <= w < |db.withdrawals|
      ensures Sum(db.accounts.ledger, KindCount({WithdrawalReserve}, WithdrawalRef(w))) == 1
      ensures Sum(db.accounts.ledger, KindCount({WithdrawalComplete, WithdrawalRelease}, WithdrawalRef(w))) ==
        (if Terminal(db.withdrawals[w].status) then 1 else 0)
    {
      KindIsKey(db.checkouts, db.withdrawals, db.accounts.ledger, ReserveKey(w), {WithdrawalReserve}, WithdrawalRef(w));
      KindIsKey(db.checkouts, db.withdrawals, db.accounts.ledger, FinalizeKey(w),
                {WithdrawalComplete, WithdrawalRelease}, WithdrawalRef(w));
      KeyCountIffWritten(db, ReserveKey(w));
      KeyCountIffWritten(db, FinalizeKey(w));
    }
  }

  /**
   * A withdrawal moves from pending to processing or rejected, and from processing to completed or failed;
   * repeating its status changes nothing; every other move is refused. The wallet can only keep a user in
   * debt from being processed.
   */
  lemma TransitionExact(env: Env, events: seq<Event>, id: nat, to: WithdrawalStatus)
    ensures var db := Run(env, EMPTY, events);
      Transition(db, id, to).Ok? <==>
        && id < |db.withdrawals|
        && var from := db.withdrawals[id].status;
          || from == to
          || (from.Pending? && to.Processing? && Available(db.accounts, db.withdrawals[id].user) >= 0)
          || (from.Pending? && to.Rejected?)
          || (from.Processing? && to.Completed?)
          || (from.Processing? && to.Failed?)
    ensures var db := Run(env, EMPTY, events);
      id < |db.withdrawals| && db.withdrawals[id].status == to ==> Transition(db, id, to) == Ok(db)
    ensures var db := Run(env, EMPTY, events);
      Transition(db, id, to).Err? ==>
        Transition(db, id, to).error ==
          (if id >= |db.withdrawals| then WithdrawalNotFound
           else if db.withdrawals[id].status.Pending? && to.Processing? then WalletHasClawbackDebt
           else InvalidWithdrawalTransition)
  {
    hide Run, RowsOk, ReviewIffOpen, OpenIssuesCurrent, UniqueCheckouts, OnePaid, BatchesOk, Running, BooksOk, Post;
    hide InDebt;
    Reachable(env, events);
    var db := Run(env, EMPTY, events);
    if id < |db.withdrawals| && db.withdrawals[id].status != to && Allowed(db.withdrawals[id].status, to) {
      if to.Processing? {
        DebtIsNegative(env, db, id);
      } else {
        FinalizePosts(env, db, id, to);
      }
    }
  }

  lemma DebtIsNegative(env: Env, db: Db, id: nat)
    requires Core(env, db) && id < |db.withdrawals|
    ensures InDebt(db.accounts, db.withdrawals[id].user) <==> Available(db.accounts, db.withdrawals[id].user) < 0
  {
    hide RowsOk, ReviewIffOpen, OpenIssuesCurrent, UniqueCheckouts, OnePaid, Running, Balanced, Solvent;
    var user := db.withdrawals[id].user;
    WalletIsLedger(db.accounts, user);
    forall k | 0 <= k < |db.accounts.ledger| && db.accounts.ledger[k].key == ReserveKey(id)
      ensures db.accounts.ledger[k].user == user
    {
      assert EntryOk(db.checkouts, db.withdrawals, db.accounts.ledger[k]);
    }
    EntryHasUser(db.accounts, ReserveKey(id), user);
    var i :| 0 <= i < |db.accounts.wallets| && Users(db.accounts.wallets)[i] == user;
    assert db.accounts.wallets[i].user == user;
  }

  /**
   * A withdrawal request is accepted exactly when withdrawals are enabled and either it repeats an earlier
   * request unchanged, which changes nothing, or it is new, reaches the minimum the policy sets (10000 VND
   * where none was ever stored), has an approved bank and is covered.
   */
  lemma CreateWithdrawalExact(env: Env, events: seq<Event>, input: WithdrawalRequest)
    ensures var db := Run(env, EMPTY, events); var known := FindWithdrawal(db.withdrawals, input.user, input.key);
      CreateWithdrawal(env, db, input).Ok? <==>
        && env.withdrawalsEnabled
        && (if known.Some? then
              db.withdrawals[known.value].amount == input.amount && db.withdrawals[known.value].bankId == input.bankId
            else
              && input.amount >= (if db.policy.Some? then db.policy.value.minWithdrawal else 10000)
              && input.bankApproved
              && Available(db.accounts, input.user) >= input.amount)
    ensures var db := Run(env, EMPTY, events); var known := FindWithdrawal(db.withdrawals, input.user, input.key);
      known.Some? && CreateWithdrawal(env, db, input).Ok? ==> CreateWithdrawal(env, db, input) == Ok(db)
    ensures var db := Run(env, EMPTY, events); var known := FindWithdrawal(db.withdrawals, input.user, input.key);
      CreateWithdrawal(env, db, input).Err? ==>
        CreateWithdrawal(env, db, input).error ==
          (if !env.withdrawalsEnabled then WithdrawalsDisabled
           else if known.Some? then IdempotencyKeyReused
           else if input.amount < (if db.policy.Some? then db.policy.value.minWithdrawal else 10000)
           then MinimumWithdrawalNotMet
           else if !input.bankApproved then ApprovedBankRequired
           else InsufficientAvailableBalance)
  {
    hide Run, RowsOk, LedgerOk, ReviewIffOpen, OpenIssuesCurrent, UniqueCheckouts, OnePaid, BatchesOk, Post, Balanced;
    hide Solvent;
    Reachable(env, events);
    var db := Run(env, EMPTY, events);
    var p := ReservePosting(|db.withdrawals|, input.user, input.amount);
    KeyUsedIffWritten(db.checkouts, db.withdrawals, db.accounts.ledger, p.key);
    ReservedIsInFlight(db, input.user);
    FreshPost(db.accounts, p);
  }
}
