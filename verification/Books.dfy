/** Every single movement of money, and every change that moves none, keeps the books. */
module Books {
  import opened Prelude
  import opened Wallets
  import opened Tables
  import opened Withdrawals
  import opened Invariants

  /** Stakes appear and get reversed; nothing else happens to them. */
  ghost predicate StakesGrow(a: seq<Checkout>, b: seq<Checkout>) {
    |a| <= |b| && forall i :: 0 <= i < |a| && StakeOf(a[i]).Stake? ==>
      StakeOf(b[i]) == StakeOf(a[i]) || StakeOf(b[i]) == StakeOf(a[i]).(reversed := true)
  }

  /** Withdrawals keep their user and amount, and their status once it is terminal. */
  ghost predicate WithdrawalsGrow(a: seq<Withdrawal>, b: seq<Withdrawal>) {
    |a| <= |b| && forall w :: 0 <= w < |a| ==>
      b[w].user == a[w].user && b[w].amount == a[w].amount && (Terminal(a[w].status) ==> b[w].status == a[w].status)
  }

  lemma EntriesGrow(checkouts: seq<Checkout>, ws: seq<Withdrawal>, checkouts': seq<Checkout>, ws': seq<Withdrawal>,
        ledger: seq<Entry>)
    requires EntriesOk(checkouts, ws, ledger)
    requires StakesGrow(checkouts, checkouts') && WithdrawalsGrow(ws, ws')
    ensures EntriesOk(checkouts', ws', ledger)
  {
    forall k | 0 <= k < |ledger| ensures EntryOk(checkouts', ws', ledger[k]) {
      assert EntryOk(checkouts, ws, ledger[k]);
    }
  }

  lemma EntriesAppend(checkouts: seq<Checkout>, ws: seq<Withdrawal>, ledger: seq<Entry>, e: Entry)
    requires EntriesOk(checkouts, ws, ledger) && EntryOk(checkouts, ws, e)
    ensures EntriesOk(checkouts, ws, ledger + [e])
  {
  }

  lemma KeysAppend(ledger: seq<Entry>, e: Entry)
    ensures HasKey(ledger + [e], e.key)
    ensures forall k :: HasKey(ledger, k) ==> HasKey(ledger + [e], k)
  {
    assert (ledger + [e])[|ledger|] == e;
    forall k | HasKey(ledger, k) ensures HasKey(ledger + [e], k) {
      var j :| 0 <= j < |ledger| && ledger[j].key == k;
      assert (ledger + [e])[j] == ledger[j];
    }
  }

  /** The row a key names is in the state that writes the key's entry. */
  ghost predicate Written(checkouts: seq<Checkout>, ws: seq<Withdrawal>, key: Key) {
    match key
    case SettlementKey(i) => i < |checkouts| && StakeOf(checkouts[i]).Stake?
    case ReversalKey(i) => i < |checkouts| && StakeOf(checkouts[i]).Stake? && StakeOf(checkouts[i]).reversed
    case ReserveKey(w) => w < |ws|
    case FinalizeKey(w) => w < |ws| && Terminal(ws[w].status)
    case AdjustmentKey(_) => true
  }

  /** A key is used exactly when its row has got that far. */
  lemma KeyUsedIffWritten(checkouts: seq<Checkout>, ws: seq<Withdrawal>, ledger: seq<Entry>, key: Key)
    requires EntriesOk(checkouts, ws, ledger) && Backed(checkouts, ws, ledger)
    ensures HasKey(ledger, key) ==> Written(checkouts, ws, key)
    ensures !key.AdjustmentKey? && Written(checkouts, ws, key) ==> HasKey(ledger, key)
  {
    forall k | 0 <= k < |ledger| && ledger[k].key == key ensures Written(checkouts, ws, key) {
      assert EntryOk(checkouts, ws, ledger[k]);
    }
  }

  // ---------- A change that moves no money ----------

  ghost predicate Neutral(checkouts: seq<Checkout>, at: Option<nat>, row: Checkout) {
    && (at.Some? ==> at.value < |checkouts|)
    && StakeOf(row) == if at.Some? then StakeOf(checkouts[at.value]) else NoStake
  }

  lemma NeutralSum(checkouts: seq<Checkout>, at: Option<nat>, row: Checkout, f: Checkout -> int)
    requires at.Some? ==> at.value < |checkouts|
    requires f(row) == if at.Some? then f(checkouts[at.value]) else 0
    ensures Sum(Put(checkouts, at, row), f) == Sum(checkouts, f)
  {
    if at.Some? { SumUpdate(checkouts, at.value, row, f); } else { SumAppend(checkouts, row, f); }
  }

  lemma NeutralKeepsBooks(checkouts: seq<Checkout>, at: Option<nat>, row: Checkout, ws: seq<Withdrawal>,
        ledger: seq<Entry>)
    requires BooksOk(checkouts, ws, ledger) && Neutral(checkouts, at, row)
    ensures BooksOk(Put(checkouts, at, row), ws, ledger)
  {
    var checkouts' := Put(checkouts, at, row);
    EntriesGrow(checkouts, ws, checkouts', ws, ledger);
    assert Backed(checkouts', ws, ledger);
    forall who ensures Balanced(checkouts', ws, ledger, who) {
      assert Balanced(checkouts, ws, ledger, who);
      NeutralSum(checkouts, at, row, CreditedTo(who));
      NeutralSum(checkouts, at, row, ReversedFrom(who));
    }
    forall user ensures Solvent(checkouts', ws, ledger, user) {
      assert Solvent(checkouts, ws, ledger, user);
      NeutralSum(checkouts, at, row, CreditedTo(Some(user)));
    }
  }

  // ---------- Movements of money ----------

  lemma LedgerAppend(ledger: seq<Entry>, e: Entry, who: Option<UserId>)
    ensures Sum(ledger + [e], AvailableOf(who)) == Sum(ledger, AvailableOf(who)) + AvailableOf(who)(e)
    ensures Sum(ledger + [e], ReservedOf(who)) == Sum(ledger, ReservedOf(who)) + ReservedOf(who)(e)
    ensures Sum(ledger + [e], AdjustmentsOf(who)) == Sum(ledger, AdjustmentsOf(who)) + AdjustmentsOf(who)(e)
    ensures Sum(ledger + [e], PositiveAdjustmentsOf(who)) ==
      Sum(ledger, PositiveAdjustmentsOf(who)) + PositiveAdjustmentsOf(who)(e)
  {
    SumAppend(ledger, e, AvailableOf(who));
    SumAppend(ledger, e, ReservedOf(who));
    SumAppend(ledger, e, AdjustmentsOf(who));
    SumAppend(ledger, e, PositiveAdjustmentsOf(who));
  }

  lemma CheckoutUpdate(checkouts: seq<Checkout>, i: nat, row: Checkout, who: Option<UserId>)
    requires i < |checkouts|
    ensures Sum(checkouts[i := row], CreditedTo(who)) ==
      Sum(checkouts, CreditedTo(who)) - CreditedTo(who)(checkouts[i]) + CreditedTo(who)(row)
    ensures Sum(checkouts[i := row], ReversedFrom(who)) ==
      Sum(checkouts, ReversedFrom(who)) - ReversedFrom(who)(checkouts[i]) + ReversedFrom(who)(row)
  {
    SumUpdate(checkouts, i, row, CreditedTo(who));
    SumUpdate(checkouts, i, row, ReversedFrom(who));
  }

  /** A settlement credit: the stake appears together with its entry. */
  lemma CreditKeepsBooks(checkouts: seq<Checkout>, i: nat, row: Checkout, ws: seq<Withdrawal>, ledger: seq<Entry>,
        e: Entry)
    requires BooksOk(checkouts, ws, ledger)
    requires i < |checkouts| && StakeOf(checkouts[i]) == NoStake
    requires StakeOf(row).Stake? && !StakeOf(row).reversed && e.key == SettlementKey(i)
    requires EntryOk(checkouts[i := row], ws, e)
    ensures BooksOk(checkouts[i := row], ws, ledger + [e])
  {
    var checkouts' := checkouts[i := row];
    EntriesGrow(checkouts, ws, checkouts', ws, ledger);
    EntriesAppend(checkouts', ws, ledger, e);
    KeysAppend(ledger, e);
    assert Backed(checkouts', ws, ledger + [e]);
    forall who ensures Balanced(checkouts', ws, ledger + [e], who) {
      assert Balanced(checkouts, ws, ledger, who);
      CheckoutUpdate(checkouts, i, row, who);
      LedgerAppend(ledger, e, who);
    }
    forall user ensures Solvent(checkouts', ws, ledger + [e], user) {
      assert Solvent(checkouts, ws, ledger, user);
      CheckoutUpdate(checkouts, i, row, Some(user));
      LedgerAppend(ledger, e, Some(user));
    }
  }

  /** A reversal: the stake is marked together with its entry. */
  lemma ReversalKeepsBooks(checkouts: seq<Checkout>, i: nat, row: Checkout, ws: seq<Withdrawal>, ledger: seq<Entry>,
        e: Entry)
    requires BooksOk(checkouts, ws, ledger)
    requires i < |checkouts| && StakeOf(checkouts[i]).Stake? && !StakeOf(checkouts[i]).reversed
    requires StakeOf(row) == StakeOf(checkouts[i]).(reversed := true) && e.key == ReversalKey(i)
    requires EntryOk(checkouts[i := row], ws, e)
    ensures BooksOk(checkouts[i := row], ws, ledger + [e])
  {
    var checkouts' := checkouts[i := row];
    EntriesGrow(checkouts, ws, checkouts', ws, ledger);
    EntriesAppend(checkouts', ws, ledger, e);
    KeysAppend(ledger, e);
    assert Backed(checkouts', ws, ledger + [e]);
    forall who ensures Balanced(checkouts', ws, ledger + [e], who) {
      assert Balanced(checkouts, ws, ledger, who);
      CheckoutUpdate(checkouts, i, row, who);
      LedgerAppend(ledger, e, who);
    }
    forall user ensures Solvent(checkouts', ws, ledger + [e], user) {
      assert Solvent(checkouts, ws, ledger, user);
      CheckoutUpdate(checkouts, i, row, Some(user));
      LedgerAppend(ledger, e, Some(user));
    }
  }

  /** An adjustment touches no row. */
  lemma AdjustmentKeepsBooks(checkouts: seq<Checkout>, ws: seq<Withdrawal>, ledger: seq<Entry>, e: Entry)
    requires BooksOk(checkouts, ws, ledger) && e.key.AdjustmentKey? && EntryOk(checkouts, ws, e)
    ensures BooksOk(checkouts, ws, ledger + [e])
  {
    EntriesAppend(checkouts, ws, ledger, e);
    KeysAppend(ledger, e);
    assert Backed(checkouts, ws, ledger + [e]);
    forall who ensures Balanced(checkouts, ws, ledger + [e], who) {
      assert Balanced(checkouts, ws, ledger, who);
      LedgerAppend(ledger, e, who);
    }
    forall user ensures Solvent(checkouts, ws, ledger + [e], user) {
      assert Solvent(checkouts, ws, ledger, user);
      LedgerAppend(ledger, e, Some(user));
    }
  }

  lemma {:induction false} NonNegativeSums(checkouts: seq<Checkout>, user: UserId)
    ensures Sum(checkouts, ReversedFrom(Some(user))) >= 0
    decreases |checkouts|
  {
    if |checkouts| > 0 { NonNegativeSums(checkouts[..|checkouts| - 1], user); }
  }

  /** What a user can spend is at most what the user was given minus what is committed. */
  lemma SpendableIsCovered(checkouts: seq<Checkout>, ws: seq<Withdrawal>, ledger: seq<Entry>, user: UserId)
    requires Balanced(checkouts, ws, ledger, Some(user))
    ensures Sum(ws, CommittedBy(Some(user))) + Sum(ledger, AvailableOf(Some(user))) <=
      Sum(checkouts, CreditedTo(Some(user))) + Sum(ledger, PositiveAdjustmentsOf(Some(user)))
  {
    NonNegativeSums(checkouts, user);
    SumMonotone(ledger, AdjustmentsOf(Some(user)), PositiveAdjustmentsOf(Some(user)));
  }

  lemma ReserveBalanced(checkouts: seq<Checkout>, ws: seq<Withdrawal>, w: Withdrawal, ledger: seq<Entry>, e: Entry,
        who: Option<UserId>)
    requires Balanced(checkouts, ws, ledger, who)
    requires w.status.Pending? && e.key == ReserveKey(|ws|) && EntryOk(checkouts, ws + [w], e)
    ensures Balanced(checkouts, ws + [w], ledger + [e], who)
  {
    LedgerAppend(ledger, e, who);
    SumAppend(ws, w, CommittedBy(who));
    SumAppend(ws, w, InFlightOf(who));
  }

  lemma ReserveSolvent(checkouts: seq<Checkout>, ws: seq<Withdrawal>, w: Withdrawal, ledger: seq<Entry>, e: Entry,
        user: UserId)
    requires Balanced(checkouts, ws, ledger, Some(user)) && Solvent(checkouts, ws, ledger, user)
    requires w.status.Pending? && e.key == ReserveKey(|ws|)
    requires Sum(ledger, AvailableOf(Some(w.user))) >= w.amount
    ensures Solvent(checkouts, ws + [w], ledger + [e], user)
  {
    LedgerAppend(ledger, e, Some(user));
    SumAppend(ws, w, CommittedBy(Some(user)));
    SpendableIsCovered(checkouts, ws, ledger, user);
  }

  /** A new withdrawal moves covered funds from available to reserved. */
  lemma ReserveKeepsBooks(checkouts: seq<Checkout>, ws: seq<Withdrawal>, w: Withdrawal, ledger: seq<Entry>, e: Entry)
    requires BooksOk(checkouts, ws, ledger)
    requires w.status.Pending? && e.key == ReserveKey(|ws|) && EntryOk(checkouts, ws + [w], e)
    requires Sum(ledger, AvailableOf(Some(w.user))) >= w.amount
    ensures BooksOk(checkouts, ws + [w], ledger + [e])
  {
    var ws' := ws + [w];
    EntriesGrow(checkouts, ws, checkouts, ws', ledger);
    EntriesAppend(checkouts, ws', ledger, e);
    KeysAppend(ledger, e);
    assert Backed(checkouts, ws', ledger + [e]);
    forall who ensures Balanced(checkouts, ws', ledger + [e], who) {
      ReserveBalanced(checkouts, ws, w, ledger, e, who);
    }
    forall user ensures Solvent(checkouts, ws', ledger + [e], user) {
      ReserveSolvent(checkouts, ws, w, ledger, e, user);
    }
  }

  lemma WithdrawalUpdate(ws: seq<Withdrawal>, id: nat, w: Withdrawal, who: Option<UserId>)
    requires id < |ws|
    ensures Sum(ws[id := w], CommittedBy(who)) ==
      Sum(ws, CommittedBy(who)) - CommittedBy(who)(ws[id]) + CommittedBy(who)(w)
    ensures Sum(ws[id := w], InFlightOf(who)) ==
      Sum(ws, InFlightOf(who)) - InFlightOf(who)(ws[id]) + InFlightOf(who)(w)
  {
    SumUpdate(ws, id, w, CommittedBy(who));
    SumUpdate(ws, id, w, InFlightOf(who));
  }

  /** Starting to process a withdrawal moves no money. */
  lemma ProcessingKeepsBooks(checkouts: seq<Checkout>, ws: seq<Withdrawal>, id: nat, ledger: seq<Entry>)
    requires BooksOk(checkouts, ws, ledger)
    requires id < |ws| && ws[id].status.Pending?
    ensures BooksOk(checkouts, ws[id := ws[id].(status := Processing)], ledger)
  {
    var w := ws[id].(status := Processing);
    var ws' := ws[id := w];
    EntriesGrow(checkouts, ws, checkouts, ws', ledger);
    assert Backed(checkouts, ws', ledger);
    forall who ensures Balanced(checkouts, ws', ledger, who) {
      assert Balanced(checkouts, ws, ledger, who);
      WithdrawalUpdate(ws, id, w, who);
    }
    forall user ensures Solvent(checkouts, ws', ledger, user) {
      assert Solvent(checkouts, ws, ledger, user);
      WithdrawalUpdate(ws, id, w, Some(user));
    }
  }

  /** Completing spends the reserve; rejecting or failing gives it back. */
  lemma FinalizeKeepsBooks(checkouts: seq<Checkout>, ws: seq<Withdrawal>, id: nat, to: WithdrawalStatus,
        ledger: seq<Entry>, e: Entry)
    requires BooksOk(checkouts, ws, ledger)
    requires id < |ws| && InFlight(ws[id].status) && Terminal(to) && e.key == FinalizeKey(id)
    requires EntryOk(checkouts, ws[id := ws[id].(status := to)], e)
    ensures BooksOk(checkouts, ws[id := ws[id].(status := to)], ledger + [e])
  {
    var w := ws[id].(status := to);
    var ws' := ws[id := w];
    EntriesGrow(checkouts, ws, checkouts, ws', ledger);
    EntriesAppend(checkouts, ws', ledger, e);
    KeysAppend(ledger, e);
    assert Backed(checkouts, ws', ledger + [e]);
    forall who ensures Balanced(checkouts, ws', ledger + [e], who) {
      FinalizeBalanced(checkouts, ws, id, to, ledger, e, who);
    }
    forall user ensures Solvent(checkouts, ws', ledger + [e], user) {
      assert Solvent(checkouts, ws, ledger, user);
      LedgerAppend(ledger, e, Some(user));
      WithdrawalUpdate(ws, id, w, Some(user));
    }
  }

  lemma FinalizeBalanced(checkouts: seq<Checkout>, ws: seq<Withdrawal>, id: nat, to: WithdrawalStatus,
        ledger: seq<Entry>, e: Entry, who: Option<UserId>)
    requires Balanced(checkouts, ws, ledger, who)
    requires id < |ws| && InFlight(ws[id].status) && Terminal(to) && e.key == FinalizeKey(id)
    requires EntryOk(checkouts, ws[id := ws[id].(status := to)], e)
    ensures Balanced(checkouts, ws[id := ws[id].(status := to)], ledger + [e], who)
  {
    LedgerAppend(ledger, e, who);
    WithdrawalUpdate(ws, id, ws[id].(status := to), who);
  }
}
