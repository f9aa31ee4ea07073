/** Withdrawals: reserve on request, then complete or release; and manual wallet adjustments. */
module Withdrawals {
  import opened Prelude
  import opened Payment
  import opened Wallets
  import opened Tables

  /** The request; `bankApproved` is the answer of the approved-bank query. */
  datatype WithdrawalRequest = WithdrawalRequest(
    user: UserId,
    key: string,
    bankId: string,
    amount: nat,
    bankApproved: bool)

  /** The text stored as the unique idempotency key of a withdrawal. */
  function RequestKeyText(user: UserId, key: string): string {
    "withdrawal:" + user + ":" + key
  }

  /** The stored text tells requests apart, since a user id (a UUID) holds no colon. */
  lemma RequestKeyInjective(user: UserId, key: string, otherUser: UserId, otherKey: string)
    requires ':' !in user && ':' !in otherUser
    ensures RequestKeyText(user, key) == RequestKeyText(otherUser, otherKey) <==> user == otherUser && key == otherKey
  {
    var a, b := user + ":" + key, otherUser + ":" + otherKey;
    assert RequestKeyText(user, key)[11..] == a && RequestKeyText(otherUser, otherKey)[11..] == b;
    if a == b {
      if |user| < |otherUser| { ColonInside(user, key, otherUser, otherKey); }
      if |otherUser| < |user| { ColonInside(otherUser, otherKey, user, key); }
      assert a[..|user|] == user && b[..|otherUser|] == otherUser;
      assert a[|user| + 1..] == key && b[|otherUser| + 1..] == otherKey;
    }
  }

  lemma ColonInside(user: UserId, key: string, longer: UserId, otherKey: string)
    requires user + ":" + key == longer + ":" + otherKey && |user| < |longer|
    ensures ':' in longer
  {
    assert (user + ":" + key)[|user|] == ':';
    assert (longer + ":" + otherKey)[|user|] == longer[|user|];
  }

  function FindWithdrawal(ws: seq<Withdrawal>, user: UserId, key: string): (r: Option<nat>)
    ensures r.Some? ==> r.value < |ws| && ws[r.value].user == user && ws[r.value].idempotencyKey == key
    ensures r.None? ==> forall i :: 0 <= i < |ws| ==> !(ws[i].user == user && ws[i].idempotencyKey == key)
  {
    if ws == [] then None
    else
      var n := |ws| - 1;
      if ws[n].user == user && ws[n].idempotencyKey == key then Some(n) else FindWithdrawal(ws[..n], user, key)
  }

  function ReservePosting(id: nat, user: UserId, amount: nat): Posting {
    Posting(user, ReserveKey(id), WithdrawalReserve, 0 - amount, amount, WithdrawalRef(id), Some(amount))
  }

  /** `create(userId, input)`. */
  function CreateWithdrawal(env: Env, db: Db, input: WithdrawalRequest): Result<Db> {
    if !env.withdrawalsEnabled then Err(WithdrawalsDisabled)
    else
      var known := FindWithdrawal(db.withdrawals, input.user, input.key);
      if known.Some? then
        var w := db.withdrawals[known.value];
        if w.amount != input.amount || w.bankId != input.bankId then Err(IdempotencyKeyReused) else Ok(db)
      else if input.amount < PolicyOr(db.policy).minWithdrawal then Err(MinimumWithdrawalNotMet)
      else if !input.bankApproved then Err(ApprovedBankRequired)
      else
        var id := |db.withdrawals|;
        var accounts := Post(db.accounts, ReservePosting(id, input.user, input.amount));
        if accounts.Err? then Err(accounts.error)
        else Ok(db.(withdrawals := db.withdrawals +
                      [Withdrawal(input.user, input.key, input.bankId, input.amount, WithdrawalStatus.Pending)],
                    accounts := accounts.value,
                    policy := Some(PolicyOr(db.policy))))
  }

  predicate Allowed(from: WithdrawalStatus, to: WithdrawalStatus) {
    match from
    case Pending => to.Processing? || to.Rejected?
    case Processing => to.Completed? || to.Failed?
    case _ => false
  }

  predicate Terminal(s: WithdrawalStatus) {
    s.Completed? || s.Rejected? || s.Failed?
  }

  function FinalizePosting(id: nat, w: Withdrawal, to: WithdrawalStatus): Posting {
    Posting(w.user, FinalizeKey(id), if to.Completed? then WithdrawalComplete else WithdrawalRelease,
            if to.Completed? then 0 else w.amount, 0 - w.amount, WithdrawalRef(id), None)
  }

  /** The user has no wallet, or owes a clawback. */
  predicate InDebt(acc: Accounts, user: UserId) {
    var i := FindWallet(acc.wallets, user);
    i.None? || acc.wallets[i.value].available < 0
  }

  /** `transition(id, actor, input)`; repeating the current status changes nothing. */
  function Transition(db: Db, id: nat, to: WithdrawalStatus): Result<Db> {
    if id >= |db.withdrawals| then Err(WithdrawalNotFound)
    else
      var w := db.withdrawals[id];
      if w.status == to then Ok(db)
      else if !Allowed(w.status, to) then Err(InvalidWithdrawalTransition)
      else if to.Processing? then
        if InDebt(db.accounts, w.user) then Err(WalletHasClawbackDebt)
        else Ok(db.(withdrawals := db.withdrawals[id := w.(status := to)]))
      else
        var accounts := Post(db.accounts, FinalizePosting(id, w, to));
        if accounts.Err? then Err(accounts.error)
        else Ok(db.(withdrawals := db.withdrawals[id := w.(status := to)], accounts := accounts.value))
  }

  function AdjustmentPosting(user: UserId, key: string, amount: int): Posting {
    Posting(user, AdjustmentKey(key), ManualAdjustment, amount, 0, AdjustmentRef(key), None)
  }

  /** `adjust(actor, input)`; the schema refuses a zero amount. */
  function Adjust(db: Db, user: UserId, key: string, amount: int): Result<Db> {
    if amount == 0 then Err(InvalidInput)
    else
      var accounts := Post(db.accounts, AdjustmentPosting(user, key, amount));
      if accounts.Err? then Err(accounts.error) else Ok(db.(accounts := accounts.value))
  }
}
