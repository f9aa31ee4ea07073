/** Wallets with cached balances and the append-only ledger they cache. */
module Wallets {
  import opened Prelude
  import opened Text

  type UserId = string

  /** A wallet row; `user` is unique. */
  datatype Wallet = Wallet(user: UserId, available: int, reserved: int)

  /** Idempotency keys. Rows are named by their position in their table. */
  datatype Key =
    | SettlementKey(commission: nat)
    | ReversalKey(commission: nat)
    | ReserveKey(withdrawal: nat)
    | FinalizeKey(withdrawal: nat)
    | AdjustmentKey(text: string)

  datatype Reference = CommissionRef(commission: nat) | WithdrawalRef(withdrawal: nat) | AdjustmentRef(text: string)

  datatype Kind =
    | CashbackCredit
    | CashbackReversal
    | WithdrawalReserve
    | WithdrawalComplete
    | WithdrawalRelease
    | ManualAdjustment

  datatype Entry = Entry(
    user: UserId,
    key: Key,
    kind: Kind,
    available: int,
    reserved: int,
    availableAfter: int,
    reservedAfter: int,
    reference: Reference)

  datatype Accounts = Accounts(wallets: seq<Wallet>, ledger: seq<Entry>)

  /** What a service asks the ledger to record. */
  datatype Posting = Posting(
    user: UserId,
    key: Key,
    kind: Kind,
    available: int,
    reserved: int,
    reference: Reference,
    requireFunds: Option<int>)

  /** The text stored as the unique idempotency key. */
  function KeyText(k: Key): string {
    match k
    case SettlementKey(c) => "settlement:" + NatText(c)
    case ReversalKey(c) => "reversal:" + NatText(c)
    case ReserveKey(w) => "reserve:" + NatText(w)
    case FinalizeKey(w) => "finalize:" + NatText(w)
    case AdjustmentKey(t) => "adjustment:" + t
  }

  /** The identifier in a key. */
  function Identifier(k: Key): string {
    match k
    case SettlementKey(c) => NatText(c)
    case ReversalKey(c) => NatText(c)
    case ReserveKey(w) => NatText(w)
    case FinalizeKey(w) => NatText(w)
    case AdjustmentKey(t) => t
  }

  lemma KeyParts(k: Key)
    ensures |KeyText(k)| >= PrefixLength(k) && KeyText(k)[PrefixLength(k)..] == Identifier(k)
    ensures KeyText(k)[0] == (match k case SettlementKey(_) => 's' case ReversalKey(_) => 'r' case ReserveKey(_) => 'r'
      case FinalizeKey(_) => 'f' case AdjustmentKey(_) => 'a')
    ensures KeyText(k)[2] == (match k case SettlementKey(_) => 't' case ReversalKey(_) => 'v' case ReserveKey(_) => 's'
      case FinalizeKey(_) => 'n' case AdjustmentKey(_) => 'j')
  {
    hide NatText;
  }

  lemma IdentifierInjective(k: Key, l: Key)
    requires Identifier(k) == Identifier(l)
    requires match k
      case SettlementKey(_) => l.SettlementKey?
      case ReversalKey(_) => l.ReversalKey?
      case ReserveKey(_) => l.ReserveKey?
      case FinalizeKey(_) => l.FinalizeKey?
      case AdjustmentKey(_) => l.AdjustmentKey?
    ensures k == l
  {
    if k.SettlementKey? { assert BigIntOf(NatText(k.commission)) == BigIntOf(NatText(l.commission)); }
    if k.ReversalKey? { assert BigIntOf(NatText(k.commission)) == BigIntOf(NatText(l.commission)); }
    if k.ReserveKey? { assert BigIntOf(NatText(k.withdrawal)) == BigIntOf(NatText(l.withdrawal)); }
    if k.FinalizeKey? { assert BigIntOf(NatText(k.withdrawal)) == BigIntOf(NatText(l.withdrawal)); }
  }

  /** How many characters of `KeyText(k)` come before the identifier. */
  function PrefixLength(k: Key): nat {
    match k
    case SettlementKey(_) => 11
    case ReversalKey(_) => 9
    case ReserveKey(_) => 8
    case FinalizeKey(_) => 9
    case AdjustmentKey(_) => 11
  }

  /** Keys of different services never collide, whatever text a caller puts in an adjustment key. */
  lemma KeyTextInjective(k: Key, l: Key)
    requires KeyText(k) == KeyText(l)
    ensures k == l
  {
    KeyParts(k);
    KeyParts(l);
    hide KeyText, NatText;
    IdentifierInjective(k, l);
  }

  function FindWallet(wallets: seq<Wallet>, user: UserId): (r: Option<nat>)
    ensures r.Some? ==> r.value < |wallets| && wallets[r.value].user == user
    ensures r.None? ==> forall i :: 0 <= i < |wallets| ==> wallets[i].user != user
  {
    if wallets == [] then None
    else
      var n := |wallets| - 1;
      if wallets[n].user == user then Some(n) else FindWallet(wallets[..n], user)
  }

  function FindEntry(ledger: seq<Entry>, key: Key): (r: Option<nat>)
    ensures r.Some? ==> r.value < |ledger| && ledger[r.value].key == key
    ensures r.None? ==> forall k :: 0 <= k < |ledger| ==> ledger[k].key != key
  {
    if ledger == [] then None
    else
      var n := |ledger| - 1;
      if ledger[n].key == key then Some(n) else FindEntry(ledger[..n], key)
  }

  predicate HasKey(ledger: seq<Entry>, key: Key) {
    exists k :: 0 <= k < |ledger| && ledger[k].key == key
  }

  /** The wallet upsert. */
  function EnsureWallet(wallets: seq<Wallet>, user: UserId): (r: seq<Wallet>)
    ensures FindWallet(r, user).Some?
  {
    if FindWallet(wallets, user).Some? then wallets else wallets + [Wallet(user, 0, 0)]
  }

  predicate SamePosting(e: Entry, p: Posting) {
    e.user == p.user && e.available == p.available && e.reserved == p.reserved && e.reference == p.reference
  }

  function Moved(w: Wallet, p: Posting): Wallet {
    Wallet(w.user, w.available + p.available, w.reserved + p.reserved)
  }

  function EntryOf(w: Wallet, p: Posting): Entry {
    Entry(p.user, p.key, p.kind, p.available, p.reserved, w.available + p.available, w.reserved + p.reserved,
          p.reference)
  }

  /** `WalletService.post`. */
  function Post(acc: Accounts, p: Posting): Result<Accounts> {
    var existing := FindEntry(acc.ledger, p.key);
    if existing.Some? then
      if SamePosting(acc.ledger[existing.value], p) then Ok(acc) else Err(IdempotencyKeyReused)
    else
      var wallets := EnsureWallet(acc.wallets, p.user);
      var i := FindWallet(wallets, p.user).value;
      if p.requireFunds.Some? && wallets[i].available < p.requireFunds.value then Err(InsufficientAvailableBalance)
      else if wallets[i].reserved + p.reserved < 0 then Err(InvalidReservedBalance)
      else Ok(Accounts(wallets[i := Moved(wallets[i], p)], acc.ledger + [EntryOf(wallets[i], p)]))
  }

  /** Selects one user's rows, or everybody's. */
  predicate Concerns(who: Option<UserId>, user: UserId) {
    who.None? || who.value == user
  }

  function AvailableOf(who: Option<UserId>): Entry -> int {
    (e: Entry) => if Concerns(who, e.user) then e.available else 0
  }

  function ReservedOf(who: Option<UserId>): Entry -> int {
    (e: Entry) => if Concerns(who, e.user) then e.reserved else 0
  }

  function WalletAvailable(): Wallet -> int { (w: Wallet) => w.available }

  function WalletReserved(): Wallet -> int { (w: Wallet) => w.reserved }

  ghost predicate UniqueWallets(wallets: seq<Wallet>) {
    forall i, j :: 0 <= i < j < |wallets| ==> wallets[i].user != wallets[j].user
  }

  ghost predicate UniqueEntries(ledger: seq<Entry>) {
    forall i, j :: 0 <= i < j < |ledger| ==> ledger[i].key != ledger[j].key
  }

  predicate HasWallet(wallets: seq<Wallet>, user: UserId) {
    exists i :: 0 <= i < |wallets| && wallets[i].user == user
  }

  /** A wallet caches the sums of its entries. */
  ghost predicate Cached(w: Wallet, ledger: seq<Entry>) {
    w.available == Sum(ledger, AvailableOf(Some(w.user))) && w.reserved == Sum(ledger, ReservedOf(Some(w.user)))
  }

  /** An entry records the balances right after it. */
  ghost predicate Running(ledger: seq<Entry>, k: nat)
    requires k < |ledger|
  {
    && ledger[k].availableAfter == Sum(ledger[..k + 1], AvailableOf(Some(ledger[k].user)))
    && ledger[k].reservedAfter == Sum(ledger[..k + 1], ReservedOf(Some(ledger[k].user)))
  }

  /** The ledger is the balance. */
  ghost predicate LedgerOk(acc: Accounts) {
    && UniqueWallets(acc.wallets)
    && UniqueEntries(acc.ledger)
    && (forall k :: 0 <= k < |acc.ledger| ==> HasWallet(acc.wallets, acc.ledger[k].user))
    && (forall i :: 0 <= i < |acc.wallets| ==> Cached(acc.wallets[i], acc.ledger))
    && (forall i :: 0 <= i < |acc.wallets| ==> acc.wallets[i].reserved >= 0)
    && (forall k :: 0 <= k < |acc.ledger| ==> Running(acc.ledger, k))
    && Sum(acc.wallets, WalletAvailable()) == Sum(acc.ledger, AvailableOf(None))
    && Sum(acc.wallets, WalletReserved()) == Sum(acc.ledger, ReservedOf(None))
  }

  /** A user without a wallet has no entries. */
  lemma {:induction false} NoWalletNoEntries(ledger: seq<Entry>, user: UserId)
    requires forall k :: 0 <= k < |ledger| ==> ledger[k].user != user
    ensures Sum(ledger, AvailableOf(Some(user))) == 0 && Sum(ledger, ReservedOf(Some(user))) == 0
    decreases |ledger|
  {
    if |ledger| > 0 { NoWalletNoEntries(ledger[..|ledger| - 1], user); }
  }

  /** An empty wallet for a user without one keeps the books. */
  lemma NewWalletKeepsLedger(acc: Accounts, user: UserId, wallets: seq<Wallet>)
    requires LedgerOk(acc) && !HasWallet(acc.wallets, user)
    requires wallets == acc.wallets + [Wallet(user, 0, 0)]
    ensures LedgerOk(acc.(wallets := wallets))
  {
    hide Running, Sum;
    forall k | 0 <= k < |acc.ledger| ensures HasWallet(wallets, acc.ledger[k].user) && acc.ledger[k].user != user {
      var j :| 0 <= j < |acc.wallets| && acc.wallets[j].user == acc.ledger[k].user;
      assert wallets[j] == acc.wallets[j];
    }
    NoWalletNoEntries(acc.ledger, user);
    SumAppend(acc.wallets, Wallet(user, 0, 0), WalletAvailable());
    SumAppend(acc.wallets, Wallet(user, 0, 0), WalletReserved());
  }

  /** The upsert keeps the books and leaves the user with a wallet. */
  lemma EnsureWalletKeepsLedger(acc: Accounts, user: UserId)
    requires LedgerOk(acc)
    ensures LedgerOk(acc.(wallets := EnsureWallet(acc.wallets, user)))
    ensures HasWallet(EnsureWallet(acc.wallets, user), user)
  {
    var wallets := EnsureWallet(acc.wallets, user);
    var i := FindWallet(wallets, user).value;
    assert wallets[i].user == user;
    if FindWallet(acc.wallets, user).None? {
      NewWalletKeepsLedger(acc, user, wallets);
    }
  }

  lemma EntryMovesSums(ledger: seq<Entry>, e: Entry)
    ensures forall who :: Sum(ledger + [e], AvailableOf(who)) == Sum(ledger, AvailableOf(who)) + AvailableOf(who)(e)
    ensures forall who :: Sum(ledger + [e], ReservedOf(who)) == Sum(ledger, ReservedOf(who)) + ReservedOf(who)(e)
  {
    forall who ensures Sum(ledger + [e], AvailableOf(who)) == Sum(ledger, AvailableOf(who)) + AvailableOf(who)(e) {
      SumAppend(ledger, e, AvailableOf(who));
    }
    forall who ensures Sum(ledger + [e], ReservedOf(who)) == Sum(ledger, ReservedOf(who)) + ReservedOf(who)(e) {
      SumAppend(ledger, e, ReservedOf(who));
    }
  }

  lemma RecordKeepsWallets(acc: Accounts, i: nat, w: Wallet, e: Entry)
    requires i < |acc.wallets| && acc.wallets[i].user == w.user == e.user
    requires forall k :: 0 <= k < |acc.ledger| ==> HasWallet(acc.wallets, acc.ledger[k].user)
    ensures var ledger := acc.ledger + [e];
      forall k :: 0 <= k < |ledger| ==> HasWallet(acc.wallets[i := w], ledger[k].user)
  {
    var wallets, ledger := acc.wallets[i := w], acc.ledger + [e];
    forall k | 0 <= k < |ledger| ensures HasWallet(wallets, ledger[k].user) {
      if k < |acc.ledger| {
        assert HasWallet(acc.wallets, acc.ledger[k].user);
        var j :| 0 <= j < |acc.wallets| && acc.wallets[j].user == acc.ledger[k].user;
        assert wallets[j].user == ledger[k].user;
      } else {
        assert wallets[i].user == ledger[k].user;
      }
    }
  }

  lemma RecordKeepsRunning(before: seq<Entry>, e: Entry)
    requires forall k :: 0 <= k < |before| ==> Running(before, k)
    requires e.availableAfter == Sum(before + [e], AvailableOf(Some(e.user)))
    requires e.reservedAfter == Sum(before + [e], ReservedOf(Some(e.user)))
    ensures forall k :: 0 <= k < |before + [e]| ==> Running(before + [e], k)
  {
    hide Sum;
    var ledger := before + [e];
    forall k | 0 <= k < |ledger| ensures Running(ledger, k) {
      if k < |before| {
        assert Running(before, k);
        assert ledger[..k + 1] == before[..k + 1];
      } else {
        assert ledger[..k + 1] == ledger;
      }
    }
  }

  /** Moving a wallet and recording the move keeps every cached and running balance right. */
  lemma RecordKeepsLedger(acc: Accounts, i: nat, p: Posting)
    requires LedgerOk(acc) && i < |acc.wallets| && acc.wallets[i].user == p.user
    requires !HasKey(acc.ledger, p.key)
    requires acc.wallets[i].reserved + p.reserved >= 0
    ensures LedgerOk(Accounts(acc.wallets[i := Moved(acc.wallets[i], p)], acc.ledger + [EntryOf(acc.wallets[i], p)]))
  {
    hide Sum, Running;
    var w, e := acc.wallets[i], EntryOf(acc.wallets[i], p);
    var wallets, ledger := acc.wallets[i := Moved(w, p)], acc.ledger + [e];
    EntryMovesSums(acc.ledger, e);
    SumUpdate(acc.wallets, i, Moved(w, p), WalletAvailable());
    SumUpdate(acc.wallets, i, Moved(w, p), WalletReserved());
    assert Cached(w, acc.ledger);
    forall j | 0 <= j < |wallets| ensures Cached(wallets[j], ledger) {
      assert Cached(acc.wallets[j], acc.ledger);
    }
    RecordKeepsWallets(acc, i, Moved(w, p), e);
    RecordKeepsRunning(acc.ledger, e);
    assert UniqueEntries(ledger) by {
      forall k | 0 <= k < |acc.ledger| ensures acc.ledger[k].key != e.key {}
    }
  }

  /** Every successful posting keeps the books. */
  lemma PostKeepsLedger(acc: Accounts, p: Posting)
    requires LedgerOk(acc) && Post(acc, p).Ok?
    ensures LedgerOk(Post(acc, p).value)
  {
    if FindEntry(acc.ledger, p.key).None? {
      EnsureWalletKeepsLedger(acc, p.user);
      var wallets := EnsureWallet(acc.wallets, p.user);
      RecordKeepsLedger(acc.(wallets := wallets), FindWallet(wallets, p.user).value, p);
    }
  }

  /** The balance a user can spend, with or without a wallet row. */
  ghost function Available(acc: Accounts, user: UserId): int {
    Sum(acc.ledger, AvailableOf(Some(user)))
  }

  ghost function Reserved(acc: Accounts, user: UserId): int {
    Sum(acc.ledger, ReservedOf(Some(user)))
  }

  lemma WalletIsLedger(acc: Accounts, user: UserId)
    requires LedgerOk(acc)
    ensures var wallets := EnsureWallet(acc.wallets, user); var w := wallets[FindWallet(wallets, user).value];
      w.available == Available(acc, user) && w.reserved == Reserved(acc, user)
  {
    EnsureWalletKeepsLedger(acc, user);
    var wallets := EnsureWallet(acc.wallets, user);
    assert Cached(wallets[FindWallet(wallets, user).value], acc.ledger);
  }

  /**
   * A posting under a fresh key succeeds exactly when the funds asked for are there and the reserve stays
   * non-negative; it then appends its entry, with the balances after it, and nothing else.
   */
  lemma FreshPost(acc: Accounts, p: Posting)
    requires LedgerOk(acc) && !HasKey(acc.ledger, p.key)
    ensures Post(acc, p).Ok? <==>
      && (p.requireFunds.Some? ==> Available(acc, p.user) >= p.requireFunds.value)
      && Reserved(acc, p.user) + p.reserved >= 0
    ensures Post(acc, p).Err? ==>
      Post(acc, p).error ==
        (if p.requireFunds.Some? && Available(acc, p.user) < p.requireFunds.value then InsufficientAvailableBalance
         else InvalidReservedBalance)
    ensures Post(acc, p).Ok? ==>
      Post(acc, p).value.ledger == acc.ledger +
        [Entry(p.user, p.key, p.kind, p.available, p.reserved, Available(acc, p.user) + p.available,
               Reserved(acc, p.user) + p.reserved, p.reference)]
  {
    WalletIsLedger(acc, p.user);
  }

  /** A posting under a used key is accepted exactly when it repeats the entry's user, amounts and reference. */
  lemma UsedPost(acc: Accounts, p: Posting, e: Entry)
    requires UniqueEntries(acc.ledger) && e in acc.ledger && e.key == p.key
    ensures Post(acc, p) ==
      if e.user == p.user && e.available == p.available && e.reserved == p.reserved && e.reference == p.reference
      then Ok(acc) else Err(IdempotencyKeyReused)
  {
    var k :| 0 <= k < |acc.ledger| && acc.ledger[k] == e;
    var found := FindEntry(acc.ledger, p.key).value;
    assert k == found;
  }

  /** Posting again under the same key either returns the first entry or fails; it never moves money. */
  lemma PostOnce(acc: Accounts, p: Posting, q: Posting)
    requires Post(acc, p).Ok? && q.key == p.key
    ensures var after := Post(acc, p).value;
      Post(after, q) == Ok(after) || Post(after, q) == Err(IdempotencyKeyReused)
    ensures q == p ==> Post(Post(acc, p).value, q) == Post(acc, p)
  {
    var after := Post(acc, p).value;
    var k := FindEntry(after.ledger, p.key);
    if FindEntry(acc.ledger, p.key).None? {
      assert after.ledger[|acc.ledger|].key == p.key;
      assert k == Some(|acc.ledger|);
    }
  }
}
