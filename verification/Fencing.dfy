/**
 * The lease protocol and the database together: instances acquire, renew and publish while every other
 * service call happens in between.
 */
module Fencing {
  import opened Prelude
  import opened Contract
  import opened Payment
  import opened Tables
  import opened Engine
  import opened Settlement
  import opened Invariants
  import opened Rows
  import opened CoreSteps
  import opened Batches
  import opened Runs
  import opened CommissionTheorems
  import opened ReviewTheorems
  import Leases
  import LeaseTheorems

  datatype System = System(world: Leases.World, db: Db)

  /** A step of the protocol, the commit of an instance's publish transaction, or any other service call. */
  datatype Move =
    | LeaseMove(action: Leases.Action)
    | PublishMove(who: Leases.Instance, affiliate: string, version: nat, groups: seq<Group>)
    | ServiceMove(event: Event)

  /** What an instance publishes for an account. */
  function PublishOf(account: string, m: Move): Event
    requires m.PublishMove?
  {
    PublishEvent(Sync(account, m.affiliate, m.version), m.groups)
  }

  /** The account an instance has its publish transaction open for, if any. */
  function OpenFor(s: System, m: Move): Option<string>
    requires m.PublishMove?
  {
    var p := Leases.PhaseOf(s.world, m.who);
    if p.Publishing? then Some(p.account) else None
  }

  /** What the lease table sees of a move; a publish that throws does not reach its commit. */
  function ActionOf(env: Env, s: System, m: Move): Leases.Action {
    match m
    case LeaseMove(a) => if a.Commit? then Leases.Tick(0) else a
    case PublishMove(who, _, _, _) =>
      var account := OpenFor(s, m);
      if account.Some? && Perform(env, s.db, PublishOf(account.value, m)).Ok?
      then Leases.Commit(who)
      else Leases.Tick(0)
    case ServiceMove(_) => Leases.Tick(0)
  }

  /** The publish goes through: its transaction commits, and so do its changes. */
  predicate Publishes(env: Env, s: System, m: Move, account: string) {
    && m.PublishMove?
    && Leases.Commits(s.world, Leases.Commit(m.who), account)
    && Perform(env, s.db, PublishOf(account, m)).Ok?
  }

  /** The publish was checked while its job was running. */
  predicate OfRunningJob(s: System, m: Move) {
    m.PublishMove? && Leases.PhaseOf(s.world, m.who).Publishing? && Leases.PhaseOf(s.world, m.who).running
  }

  /** The database after a move. */
  function Changed(env: Env, s: System, m: Move): Db {
    match m
    case LeaseMove(_) => s.db
    case PublishMove(_, _, _, _) =>
      var account := OpenFor(s, m);
      if account.Some? && Publishes(env, s, m, account.value)
      then Step(env, s.db, PublishOf(account.value, m))
      else s.db
    case ServiceMove(e) => if e.PublishEvent? then s.db else Step(env, s.db, e)
  }

  function Advance(env: Env, s: System, m: Move): System {
    System(Leases.Act(s.world, ActionOf(env, s, m)), Changed(env, s, m))
  }

  /** The system after the first `n` moves. */
  function SystemAt(env: Env, start: System, moves: seq<Move>, n: nat): System
    requires n <= |moves|
  {
    if n == 0 then start else Advance(env, SystemAt(env, start, moves, n - 1), moves[n - 1])
  }

  /** The protocol steps of a run of the system. */
  function TraceOf(env: Env, start: System, moves: seq<Move>): (actions: seq<Leases.Action>)
    ensures |actions| == |moves|
    ensures forall k :: 0 <= k < |moves| ==> actions[k] == ActionOf(env, SystemAt(env, start, moves, k), moves[k])
  {
    seq(|moves|, k requires 0 <= k < |moves| => ActionOf(env, SystemAt(env, start, moves, k), moves[k]))
  }

  lemma {:induction false} WorldAt(env: Env, start: System, moves: seq<Move>, n: nat)
    requires n <= |moves|
    ensures SystemAt(env, start, moves, n).world == Leases.At(start.world, TraceOf(env, start, moves), n)
    decreases n
  {
    hide Leases.Act, Changed, ActionOf, TraceOf;
    if n > 0 {
      WorldAt(env, start, moves, n - 1);
      LeaseTheorems.AtNext(start.world, TraceOf(env, start, moves), n - 1);
      assert SystemAt(env, start, moves, n) == Advance(env, SystemAt(env, start, moves, n - 1), moves[n - 1]);
    }
  }

  lemma ChangedKeepsInv(env: Env, s: System, m: Move)
    requires Inv(env, s.db)
    ensures Inv(env, Changed(env, s, m))
  {
    hide Inv, Step, Perform, Runs.Moves, Leases.Commits;
    match m
    case LeaseMove(_) =>
    case PublishMove(_, _, _, _) =>
      if OpenFor(s, m).Some? { StepKeepsInv(env, s.db, PublishOf(OpenFor(s, m).value, m)); }
    case ServiceMove(e) => StepKeepsInv(env, s.db, e);
  }

  lemma {:induction false} InvAt(env: Env, start: System, moves: seq<Move>, n: nat)
    requires n <= |moves| && Inv(env, start.db)
    ensures Inv(env, SystemAt(env, start, moves, n).db)
    decreases n
  {
    hide Inv, Changed, ActionOf, Leases.Act;
    if n > 0 {
      InvAt(env, start, moves, n - 1);
      ChangedKeepsInv(env, SystemAt(env, start, moves, n - 1), moves[n - 1]);
    }
  }

  // ---------- What changes an account's checkouts ----------

  /** The account's checkouts are the same rows. */
  ghost predicate RowsKept(a: seq<Checkout>, b: seq<Checkout>, account: string) {
    && |a| <= |b|
    && (forall i :: 0 <= i < |a| && a[i].provider == ProviderScope(account) ==> b[i] == a[i])
    && (forall i :: 0 <= i < |a| ==> b[i].provider == a[i].provider)
    && (forall i :: |a| <= i < |b| ==> b[i].provider != ProviderScope(account))
  }

  /** The account's checkouts are the same, and so are the snapshots stored for them. */
  ghost predicate SnapshotsKept(a: seq<Checkout>, b: seq<Checkout>, account: string) {
    && |a| <= |b|
    && (forall i :: 0 <= i < |a| ==> b[i].provider == a[i].provider && b[i].checkoutId == a[i].checkoutId)
    && (forall i :: 0 <= i < |a| && a[i].provider == ProviderScope(account) ==>
          b[i].payload == a[i].payload && b[i].sourceHash == a[i].sourceHash)
    && (forall i :: |a| <= i < |b| ==> b[i].provider != ProviderScope(account))
  }

  lemma SnapshotsCompose(a: seq<Checkout>, m: seq<Checkout>, b: seq<Checkout>, account: string)
    requires SnapshotsKept(a, m, account) && SnapshotsKept(m, b, account)
    ensures SnapshotsKept(a, b, account)
  {
    forall i | |a| <= i < |b| ensures b[i].provider != ProviderScope(account) {
      if i < |m| { assert m[i].provider != ProviderScope(account); }
    }
  }

  /** Publishing one checkout of another account keeps the account's rows. */
  lemma OtherGroupKeeps(env: Env, db: Db, sync: Sync, g: Group, account: string)
    requires db.credential.Some? && PublishOne(env, db, sync, g).Ok? && sync.accountId != account
    ensures RowsKept(db.checkouts, PublishOne(env, db, sync, g).value.checkouts, account)
    ensures SnapshotsKept(db.checkouts, PublishOne(env, db, sync, g).value.checkouts, account)
  {
    hide PublishOne, Unchanged;
    if Unchanged(env, db, sync, g) {
      SkipsUnchanged(env, db, sync, g);
    } else {
      PublishOneWrites(env, db, sync, g);
      if ProviderScope(sync.accountId) == ProviderScope(account) { ProviderScopeInjective(sync.accountId, account); }
    }
  }

  lemma {:induction false} OtherGroupsKeep(env: Env, db: Db, sync: Sync, groups: seq<Group>, account: string)
    requires db.credential.Some? && PublishAll(env, db, sync, groups).Ok? && sync.accountId != account
    ensures RowsKept(db.checkouts, PublishAll(env, db, sync, groups).value.checkouts, account)
    ensures SnapshotsKept(db.checkouts, PublishAll(env, db, sync, groups).value.checkouts, account)
    decreases |groups|
  {
    hide PublishOne;
    if groups != [] {
      var m := PublishOne(env, db, sync, groups[0]).value;
      OtherGroupKeeps(env, db, sync, groups[0], account);
      OtherGroupsKeep(env, m, sync, groups[1..], account);
      SnapshotsCompose(db.checkouts, m.checkouts, PublishAll(env, db, sync, groups).value.checkouts, account);
    }
  }

  /** A publish of another account keeps the account's rows. */
  lemma OtherPublishKeeps(env: Env, db: Db, sync: Sync, groups: seq<Group>, account: string)
    requires sync.accountId != account
    ensures RowsKept(db.checkouts, Step(env, db, PublishEvent(sync, groups)).checkouts, account)
    ensures SnapshotsKept(db.checkouts, Step(env, db, PublishEvent(sync, groups)).checkouts, account)
  {
    hide PublishAll;
    if Perform(env, db, PublishEvent(sync, groups)).Ok? { OtherGroupsKeep(env, db, sync, groups, account); }
  }

  lemma PaysKeepSnapshots(a: seq<Checkout>, b: seq<Checkout>, items: seq<SettlementItem>, account: string)
    requires Pays(a, b, items)
    ensures SnapshotsKept(a, b, account)
  {
    hide PaidItemOk, Fresh, Names, WriteOnce;
  }

  lemma ReviewKeepsSnapshots(env: Env, db: Db, issue: nat, review: Review, account: string)
    requires Core(env, db) && ReviewIssue(env, db, issue, review).Ok?
    ensures SnapshotsKept(db.checkouts, ReviewIssue(env, db, issue, review).value.checkouts, account)
  {
    hide Core, ReviewIssue, Bumped, Credits, FullyPaid, Rows.Shares;
    ReviewExact(env, db, issue, review);
    ReviewSettles(env, db, issue, review);
    ReviewKeepsCore(env, db, issue, review);
    var b := ReviewIssue(env, db, issue, review).value.checkouts;
    forall i | 0 <= i < |db.checkouts|
      ensures b[i].provider == db.checkouts[i].provider && b[i].checkoutId == db.checkouts[i].checkoutId
    {
      if b[i] != db.checkouts[i] { BumpKeepsIdentity(db.checkouts[i], b[i]); }
    }
  }

  lemma BumpKeepsIdentity(a: Checkout, b: Checkout)
    requires Bumped(a, b)
    ensures SameIdentity(a, b)
  {
    hide MoneyKept, WriteOnce;
  }

  /** No service call but publishing touches a stored snapshot. */
  lemma ServiceKeepsSnapshots(env: Env, db: Db, e: Event, account: string)
    requires Inv(env, db) && !e.PublishEvent?
    ensures SnapshotsKept(db.checkouts, Step(env, db, e).checkouts, account)
  {
    hide Core, BatchesOk, Confirm, ReviewIssue, SnapshotsKept, Pays;
    SameSnapshots(db.checkouts, account);
    if e.ReviewEvent? {
      if ReviewIssue(env, db, e.issue, e.review).Ok? { ReviewKeepsSnapshots(env, db, e.issue, e.review, account); }
    } else if e.ConfirmEvent? {
      if Confirm(env, db, e.batch).Ok? {
        ConfirmMoves(env, db, e.batch);
        var after := Confirm(env, db, e.batch).value;
        if after != db { PaysKeepSnapshots(db.checkouts, after.checkouts, db.batches[e.batch].items, account); }
      }
    } else {
      OthersKeepCheckouts(env, db, e);
    }
  }

  lemma SameSnapshots(checkouts: seq<Checkout>, account: string)
    ensures SnapshotsKept(checkouts, checkouts, account)
  {
  }

  // ---------- Fencing ----------

  /** A move that does not publish the account keeps its snapshots. */
  lemma MoveKeepsSnapshots(env: Env, s: System, m: Move, account: string)
    requires Inv(env, s.db) && !Publishes(env, s, m, account)
    ensures SnapshotsKept(s.db.checkouts, Changed(env, s, m).checkouts, account)
    ensures m.PublishMove? ==> RowsKept(s.db.checkouts, Changed(env, s, m).checkouts, account)
  {
    hide Inv, Step, Perform, SnapshotsKept, Leases.Commits;
    SameSnapshots(s.db.checkouts, account);
    if m.PublishMove? && OpenFor(s, m).Some? && OpenFor(s, m) != Some(account) {
      OtherPublishKeeps(env, s.db, Sync(OpenFor(s, m).value, m.affiliate, m.version), m.groups, account);
    }
    if m.ServiceMove? && !m.event.PublishEvent? { ServiceKeepsSnapshots(env, s.db, m.event, account); }
  }

  lemma {:induction false} NoPublishKeepsSnapshots(env: Env, start: System, moves: seq<Move>, i: nat, j: nat,
      account: string)
    requires Inv(env, start.db) && i <= j <= |moves|
    requires forall k :: i <= k < j ==> !Publishes(env, SystemAt(env, start, moves, k), moves[k], account)
    ensures SnapshotsKept(SystemAt(env, start, moves, i).db.checkouts,
                          SystemAt(env, start, moves, j).db.checkouts, account)
    decreases j - i
  {
    hide Inv, Changed, ActionOf, Leases.Act, Publishes, SnapshotsKept;
    if i == j {
      SameSnapshots(SystemAt(env, start, moves, i).db.checkouts, account);
    } else {
      var s := SystemAt(env, start, moves, j - 1);
      NoPublishKeepsSnapshots(env, start, moves, i, j - 1, account);
      InvAt(env, start, moves, j - 1);
      MoveKeepsSnapshots(env, s, moves[j - 1], account);
      SnapshotsCompose(SystemAt(env, start, moves, i).db.checkouts, s.db.checkouts,
                       SystemAt(env, start, moves, j).db.checkouts, account);
    }
  }

  lemma PublishKeepsOtherRows(env: Env, start: System, moves: seq<Move>, k: nat, account: string)
    requires Inv(env, start.db) && k < |moves| && moves[k].PublishMove?
    requires !Publishes(env, SystemAt(env, start, moves, k), moves[k], account)
    ensures RowsKept(SystemAt(env, start, moves, k).db.checkouts,
                     SystemAt(env, start, moves, k + 1).db.checkouts, account)
  {
    hide Inv, Changed, ActionOf, Leases.Act, Publishes, RowsKept;
    InvAt(env, start, moves, k);
    MoveKeepsSnapshots(env, SystemAt(env, start, moves, k), moves[k], account);
  }

  /** A publish that goes through is a commit of the protocol. */
  lemma PublishCommits(env: Env, s: System, m: Move, account: string)
    requires Publishes(env, s, m, account)
    ensures ActionOf(env, s, m) == Leases.Commit(m.who) && Leases.Commits(s.world, ActionOf(env, s, m), account)
    ensures m.PublishMove? && Leases.PhaseOf(s.world, m.who).Publishing?
    ensures OfRunningJob(s, m) <==> Leases.PhaseOf(s.world, m.who).running
  {
    hide Perform;
  }

  /** An acquisition or a lease check is a move of the protocol. */
  lemma ProtocolMove(env: Env, s: System, m: Move, account: string)
    ensures Leases.Acquires(s.world, ActionOf(env, s, m), account) ==>
      m.LeaseMove? && m.action == ActionOf(env, s, m) && !Publishes(env, s, m, account)
    ensures Leases.Checks(s.world, ActionOf(env, s, m), account) ==> m.LeaseMove? && m.action == ActionOf(env, s, m)
  {
    hide Perform;
  }

  /**
   * Fenced publishing. When a publish of an account goes through, its instance acquired the account's
   * lease at an earlier move `i` and passed the lease check at a later move `c`, holding the lease at every
   * move in between. If its job was running at the check, then from the acquisition to the commit nobody
   * else acquires the account, and no publish of a running job of the account goes through. While no
   * publish of the account goes through, whatever else is published, reviewed, settled or withdrawn, no
   * publish changes any of its rows, and the snapshots stored for it stay those of the acquisition.
   */
  lemma FencedPublish(env: Env, start: System, moves: seq<Move>, j: nat, account: string) returns (i: nat, c: nat)
    requires start.world.phases == map[] && Inv(env, start.db) && j < |moves|
    requires Publishes(env, SystemAt(env, start, moves, j), moves[j], account)
    ensures i < c < j
    ensures moves[i] == LeaseMove(Leases.Acquire(moves[j].who)) && moves[c] == LeaseMove(Leases.Check(moves[j].who))
    ensures Leases.Acquires(SystemAt(env, start, moves, i).world, Leases.Acquire(moves[j].who), account)
    ensures forall k :: i < k <= c ==> Leases.Holds(SystemAt(env, start, moves, k).world, moves[j].who, account)
    ensures OfRunningJob(SystemAt(env, start, moves, j), moves[j]) ==>
      forall k :: i < k < j && moves[k].LeaseMove? ==>
        !Leases.Acquires(SystemAt(env, start, moves, k).world, moves[k].action, account)
    ensures OfRunningJob(SystemAt(env, start, moves, j), moves[j]) ==>
      forall k :: i < k < j && Publishes(env, SystemAt(env, start, moves, k), moves[k], account) ==>
        !OfRunningJob(SystemAt(env, start, moves, k), moves[k])
    ensures forall k | i < k < j && moves[k].PublishMove? ::
      Publishes(env, SystemAt(env, start, moves, k), moves[k], account) ||
      RowsKept(SystemAt(env, start, moves, k).db.checkouts, SystemAt(env, start, moves, k + 1).db.checkouts, account)
    ensures (forall k :: i < k < j ==> !Publishes(env, SystemAt(env, start, moves, k), moves[k], account)) ==>
      SnapshotsKept(SystemAt(env, start, moves, i).db.checkouts, SystemAt(env, start, moves, j).db.checkouts, account)
  {
    hide Inv, Advance, Publishes, ActionOf, OfRunningJob, SnapshotsKept, RowsKept, SystemAt;
    hide Leases.At, Leases.Commits, Leases.Acquires, Leases.Checks, Leases.Holds, Leases.PhaseOf;
    var actions := TraceOf(env, start, moves);
    forall k: nat | k <= j ensures SystemAt(env, start, moves, k).world == Leases.At(start.world, actions, k) {
      WorldAt(env, start, moves, k);
    }
    PublishCommits(env, SystemAt(env, start, moves, j), moves[j], account);
    i, c := LeaseTheorems.LeaseFencing(start.world, actions, j, account);
    ProtocolMove(env, SystemAt(env, start, moves, i), moves[i], account);
    ProtocolMove(env, SystemAt(env, start, moves, c), moves[c], account);
    KindsOf(SystemAt(env, start, moves, i).world, actions[i], account);
    KindsOf(SystemAt(env, start, moves, c).world, actions[c], account);
    forall k: nat | i < k < j && Publishes(env, SystemAt(env, start, moves, k), moves[k], account)
      ensures moves[k].PublishMove? && actions[k] == Leases.Commit(moves[k].who)
      ensures Leases.Commits(SystemAt(env, start, moves, k).world, actions[k], account)
      ensures Leases.PhaseOf(SystemAt(env, start, moves, k).world, moves[k].who).Publishing?
      ensures OfRunningJob(SystemAt(env, start, moves, k), moves[k]) <==>
        Leases.PhaseOf(SystemAt(env, start, moves, k).world, moves[k].who).running
    {
      PublishCommits(env, SystemAt(env, start, moves, k), moves[k], account);
    }
    forall k: nat | i < k < j && moves[k].LeaseMove?
      && Leases.Acquires(SystemAt(env, start, moves, k).world, moves[k].action, account)
      ensures actions[k] == moves[k].action
    {
      LeaseMoveAction(env, SystemAt(env, start, moves, k), moves[k], account);
    }
    forall k: nat | i < k < j && moves[k].PublishMove?
      && !Publishes(env, SystemAt(env, start, moves, k), moves[k], account)
      ensures RowsKept(SystemAt(env, start, moves, k).db.checkouts,
                       SystemAt(env, start, moves, k + 1).db.checkouts, account)
    {
      PublishKeepsOtherRows(env, start, moves, k, account);
    }
    if forall k :: i < k < j ==> !Publishes(env, SystemAt(env, start, moves, k), moves[k], account) {
      NoPublishKeepsSnapshots(env, start, moves, i, j, account);
    }
  }

  lemma KindsOf(s: Leases.World, a: Leases.Action, account: string)
    ensures Leases.Acquires(s, a, account) ==> a.Acquire?
    ensures Leases.Checks(s, a, account) ==> a.Check?
  {
  }

  lemma LeaseMoveAction(env: Env, s: System, m: Move, account: string)
    requires m.LeaseMove? && Leases.Acquires(s.world, m.action, account)
    ensures ActionOf(env, s, m) == m.action
  {
  }
}
