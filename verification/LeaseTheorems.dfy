/** What the job lease guarantees: fenced publishing, and the one gap it leaves. */
module LeaseTheorems {
  import opened Prelude
  import opened Leases

  // ---------- Holding a lease ----------

  /** The instance is at work on the account and holds its lease. */
  predicate Guarded(s: World, who: Instance, account: string) {
    && (PhaseOf(s, who).Working? || PhaseOf(s, who).Publishing?)
    && PhaseOf(s, who).account == account
    && Holds(s, who, account)
  }

  /** A guarded instance was guarded a step before, unless that step was its own acquisition. */
  lemma GuardedBackwards(s: World, a: Action, who: Instance, account: string)
    requires Guarded(Act(s, a), who, account)
    ensures Guarded(s, who, account) || (Acquires(s, a, account) && a.who == who)
  {
    hide FailRunning, Write;
  }

  /** While an instance is guarded, nobody acquires the account or passes a lease check but itself. */
  lemma GuardExcludes(s: World, a: Action, who: Instance, account: string)
    requires Guarded(s, who, account)
    ensures !Acquires(s, a, account)
    ensures Checks(s, a, account) ==> a.who == who
  {
  }

  /** A guarded instance acquired the lease at an earlier step, and was guarded ever since. */
  lemma {:induction false} GuardedSince(start: World, actions: seq<Action>, j: nat, who: Instance, account: string)
      returns (i: nat)
    requires start.phases == map[] && j <= |actions|
    requires Guarded(At(start, actions, j), who, account)
    ensures i < j && Acquires(At(start, actions, i), actions[i], account) && actions[i].who == who
    ensures forall k :: i < k <= j ==> Guarded(At(start, actions, k), who, account)
    decreases j
  {
    hide Act, Acquires;
    if j == 0 {
      assert false;
    } else {
      var before := At(start, actions, j - 1);
      GuardedBackwards(before, actions[j - 1], who, account);
      if Guarded(before, who, account) {
        i := GuardedSince(start, actions, j - 1, who, account);
      } else {
        i := j - 1;
      }
    }
  }

  // ---------- Job rows ----------

  /** The phase speaks of an existing job of its account. */
  predicate PhaseOk(s: World, who: Instance) {
    match PhaseOf(s, who)
    case Picked(job, _) => job < |s.jobs|
    case Working(job, account, _) => job < |s.jobs| && s.jobs[job].account == account
    case Publishing(job, account, _, _) => job < |s.jobs| && s.jobs[job].account == account
    case Failing(job, account) => job < |s.jobs| && s.jobs[job].account == account
    case _ => true
  }

  ghost predicate Consistent(s: World) {
    forall who :: PhaseOk(s, who)
  }

  /** Rows stay; a row of the same version is the same row. */
  predicate RowKept(a: World, b: World, job: nat) {
    job < |a.jobs| ==>
      && job < |b.jobs|
      && b.jobs[job].account == a.jobs[job].account
      && a.jobs[job].version <= b.jobs[job].version
      && (b.jobs[job].version == a.jobs[job].version ==> b.jobs[job] == a.jobs[job])
  }

  lemma ActKeepsRow(s: World, a: Action, job: nat)
    ensures RowKept(s, Act(s, a), job)
  {
  }

  lemma PhaseStaysOk(s: World, a: Action, who: Instance)
    requires PhaseOk(s, who)
    ensures PhaseOk(Act(s, a), who)
  {
    if !PhaseOf(s, who).Idle? && !PhaseOf(s, who).Releasing? { ActKeepsRow(s, a, PhaseOf(s, who).job); }
    hide FailRunning, Write, Written, Extended, Released, Holding, Free;
  }

  lemma {:induction false} ConsistentAt(start: World, actions: seq<Action>, n: nat)
    requires start.phases == map[] && n <= |actions|
    ensures Consistent(At(start, actions, n))
    decreases n
  {
    hide Act, PhaseOk;
    if n == 0 {
      forall who ensures PhaseOk(start, who) { NobodyStarted(start, who); }
    } else {
      ConsistentAt(start, actions, n - 1);
      forall who ensures PhaseOk(At(start, actions, n), who) {
        PhaseStaysOk(At(start, actions, n - 1), actions[n - 1], who);
      }
    }
  }

  lemma NobodyStarted(s: World, who: Instance)
    requires s.phases == map[]
    ensures PhaseOk(s, who)
  {
  }

  lemma {:induction false} RowKeptOver(start: World, actions: seq<Action>, a: nat, b: nat, job: nat)
    requires a <= b <= |actions|
    ensures RowKept(At(start, actions, a), At(start, actions, b), job)
    decreases b - a
  {
    hide Act;
    if a < b {
      RowKeptOver(start, actions, a, b - 1, job);
      ActKeepsRow(At(start, actions, b - 1), actions[b - 1], job);
    }
  }

  // ---------- The life of a job ----------

  /** The instance took the job up and has not finished with it. */
  predicate TookUp(s: World, who: Instance, job: nat) {
    match PhaseOf(s, who)
    case Picked(j, queued) => queued && j == job
    case Working(j, _, _) => j == job
    case Publishing(j, _, _, _) => j == job
    case Failing(j, _) => j == job
    case _ => false
  }

  lemma TookUpBackwards(s: World, a: Action, who: Instance, job: nat)
    requires TookUp(Act(s, a), who, job) && !TookUp(s, who, job)
    ensures a == Pick(who, job) && StatusOf(s, job).Queued?
  {
    hide FailRunning, Write, Written, Extended, Released;
  }

  /** Whoever is at work on a job found it queued: an instance that picks a running job never runs it. */
  lemma {:induction false} TakenUpQueued(start: World, actions: seq<Action>, n: nat, who: Instance, job: nat)
      returns (i: nat)
    requires start.phases == map[] && n <= |actions| && TookUp(At(start, actions, n), who, job)
    ensures i < n && actions[i] == Pick(who, job) && StatusOf(At(start, actions, i), job).Queued?
    decreases n
  {
    hide Act, TookUp;
    if n == 0 {
      NothingTaken(start, who, job);
    } else if TookUp(At(start, actions, n - 1), who, job) {
      i := TakenUpQueued(start, actions, n - 1, who, job);
    } else {
      TookUpBackwards(At(start, actions, n - 1), actions[n - 1], who, job);
      i := n - 1;
    }
  }

  lemma NothingTaken(s: World, who: Instance, job: nat)
    requires s.phases == map[]
    ensures !TookUp(s, who, job)
  {
  }

  /** The account's lease is acquired: the instance picked a job of the account, and the lease was to be had. */
  predicate TakesLease(s: World, a: Action, account: string) {
    && a.Acquire? && PhaseOf(s, a.who).Picked? && PhaseOf(s, a.who).job < |s.jobs|
    && s.jobs[PhaseOf(s, a.who).job].account == account
    && !(account in s.leases && s.leases[account].expiresAt > s.now)
  }

  /** The instance works on the job, before or after it marked it as running. */
  predicate AtWork(s: World, who: Instance, job: nat, started: bool) {
    PhaseOf(s, who).Working? && PhaseOf(s, who).job == job && PhaseOf(s, who).started == started
  }

  /** The publish transaction is open and saw the row as it still is. */
  predicate Ready(s: World, who: Instance, job: nat) {
    PhaseOf(s, who).Publishing? && PhaseOf(s, who).job == job && job < |s.jobs|
    && PhaseOf(s, who).seen == s.jobs[job].version
  }

  /** The instance is past its acquisition and not done with the job. */
  predicate Busy(s: World, who: Instance, job: nat) {
    var p := PhaseOf(s, who);
    (p.Working? && p.job == job) || (p.Publishing? && p.job == job) || (p.Failing? && p.job == job)
  }

  /** What a step makes of a job row, when it writes it. */
  function Rewritten(s: World, a: Action, job: nat): Option<JobStatus>
    requires job < |s.jobs|
  {
    var x := s.jobs[job];
    if a.Start? && AtWork(s, a.who, job, false) then Some(Running)
    else if a.StorePage? && AtWork(s, a.who, job, true) then Some(x.status)
    else if a.Commit? && Ready(s, a.who, job) then Some(Completed)
    else if a.Fail? && Busy(s, a.who, job) && !x.status.Failed? then Some(Failed)
    else if TakesLease(s, a, x.account) && x.status.Running? then Some(Failed)
    else None
  }

  /**
   * How a job row changes. It starts running when the instance that took it up starts it, is written with
   * every page, is completed by a publish transaction that saw it as it is, and fails when an instance at
   * work on it ends it or, while it is running, when the account's lease is acquired. Every such write is a
   * new version, and no other step writes the row.
   */
  lemma JobLifecycle(s: World, a: Action, job: nat)
    requires job < |s.jobs|
    ensures job < |Act(s, a).jobs|
    ensures var x, y := s.jobs[job], Act(s, a).jobs[job];
      match Rewritten(s, a, job)
      case None => y == x
      case Some(status) => y == Job(x.account, status, x.version + 1)
  {
    hide Extended, Released;
  }

  // ---------- The publish transaction ----------

  /** An open transaction was open a step before, unless that step was its lease check. */
  lemma OpenBackwards(s: World, a: Action, who: Instance)
    requires PhaseOf(Act(s, a), who).Publishing?
    ensures var p := PhaseOf(Act(s, a), who);
      || PhaseOf(s, who) == p
      || (a == Check(who) && Checks(s, a, p.account) && PhaseOf(s, who) == Working(p.job, p.account, true)
          && p.seen == VersionOf(s, p.job) && p.running == StatusOf(s, p.job).Running?)
  {
  }

  /** The lease check that opened a transaction, open ever since. */
  lemma {:induction false} OpenSince(start: World, actions: seq<Action>, j: nat, who: Instance) returns (c: nat)
    requires start.phases == map[] && j <= |actions|
    requires PhaseOf(At(start, actions, j), who).Publishing?
    ensures var p := PhaseOf(At(start, actions, j), who);
      && c < j && actions[c] == Check(who) && Checks(At(start, actions, c), actions[c], p.account)
      && PhaseOf(At(start, actions, c), who) == Working(p.job, p.account, true)
      && p.seen == VersionOf(At(start, actions, c), p.job)
      && p.running == StatusOf(At(start, actions, c), p.job).Running?
      && (forall k :: c < k <= j ==> PhaseOf(At(start, actions, k), who) == p)
    decreases j
  {
    hide Act, Checks, VersionOf, StatusOf;
    if j == 0 {
      assert false;
    } else {
      var before := At(start, actions, j - 1);
      OpenBackwards(before, actions[j - 1], who);
      if PhaseOf(before, who) == PhaseOf(At(start, actions, j), who) {
        c := OpenSince(start, actions, j - 1, who);
      } else {
        c := j - 1;
      }
    }
  }

  /** Acquiring a lease writes every running job of the account. */
  lemma AcquireWritesRunning(s: World, a: Action, account: string, job: nat)
    requires Acquires(s, a, account) && job < |s.jobs| && s.jobs[job].account == account && s.jobs[job].status.Running?
    ensures job < |Act(s, a).jobs| && Act(s, a).jobs[job].version > s.jobs[job].version
  {
  }

  /** An acquisition between the lease check and the commit writes the job row, so the commit is aborted. */
  lemma NotOvertaken(start: World, actions: seq<Action>, c: nat, k: nat, j: nat, job: nat, account: string)
    requires c <= k < j <= |actions|
    requires var row := At(start, actions, c).jobs;
      job < |row| && row[job].account == account && row[job].status.Running?
    requires VersionOf(At(start, actions, j), job) == VersionOf(At(start, actions, c), job)
    ensures !Acquires(At(start, actions, k), actions[k], account)
  {
    hide Act, Acquires;
    RowKeptOver(start, actions, c, k, job);
    RowKeptOver(start, actions, k + 1, j, job);
    ActKeepsRow(At(start, actions, k), actions[k], job);
    if Acquires(At(start, actions, k), actions[k], account) {
      AcquireWritesRunning(At(start, actions, k), actions[k], account, job);
    }
  }

  /** Where a commit comes from: the acquisition, and the lease check that opened its transaction. */
  ghost predicate Fenced(start: World, actions: seq<Action>, i: nat, c: nat, j: nat, account: string)
    requires j < |actions| && Commits(At(start, actions, j), actions[j], account)
  {
    var who := actions[j].who;
    && i < c < j
    && Acquires(At(start, actions, i), actions[i], account) && actions[i].who == who
    && actions[c] == Check(who) && Checks(At(start, actions, c), actions[c], account)
    && (forall k :: i < k <= c ==> Guarded(At(start, actions, k), who, account))
    && (forall k :: i < k <= c ==> !Acquires(At(start, actions, k), actions[k], account))
    && (forall k :: c < k <= j ==> PhaseOf(At(start, actions, k), who) == PhaseOf(At(start, actions, j), who))
    && (PhaseOf(At(start, actions, j), who).running ==>
          forall k :: c < k < j ==> !Acquires(At(start, actions, k), actions[k], account))
  }

  lemma CommitFenced(start: World, actions: seq<Action>, j: nat, account: string) returns (i: nat, c: nat)
    requires start.phases == map[] && j < |actions| && Commits(At(start, actions, j), actions[j], account)
    ensures Fenced(start, actions, i, c, j, account)
  {
    hide Act, Acquires, PhaseOk;
    var who := actions[j].who;
    var p := PhaseOf(At(start, actions, j), who);
    c := OpenSince(start, actions, j, who);
    i := GuardedSince(start, actions, c, who, account);
    forall k | i < k <= c ensures !Acquires(At(start, actions, k), actions[k], account) {
      GuardExcludes(At(start, actions, k), actions[k], who, account);
    }
    ConsistentAt(start, actions, c);
    assert PhaseOk(At(start, actions, c), who);
    if p.running {
      WorkingRow(At(start, actions, c), who);
      forall k | c < k < j ensures !Acquires(At(start, actions, k), actions[k], account) {
        NotOvertaken(start, actions, c, k, j, p.job, account);
      }
    }
  }

  lemma WorkingRow(s: World, who: Instance)
    requires PhaseOk(s, who) && PhaseOf(s, who).Working?
    ensures PhaseOf(s, who).job < |s.jobs| && s.jobs[PhaseOf(s, who).job].account == PhaseOf(s, who).account
  {
  }

  /** A commit ends its instance's work. */
  lemma CommitEnds(s: World, a: Action, account: string)
    requires Commits(s, a, account)
    ensures PhaseOf(Act(s, a), a.who).Releasing?
  {
  }

  lemma CommitIsNoAcquire(start: World, actions: seq<Action>, i: nat, c: nat, j: nat, k: nat, account: string)
    requires k < j < |actions|
    requires Commits(At(start, actions, j), actions[j], account) && Fenced(start, actions, i, c, j, account)
    requires Commits(At(start, actions, k), actions[k], account)
    ensures k != i
  {
    hide At, Guarded, Checks;
  }

  lemma SameAcquisition(start: World, actions: seq<Action>, i: nat, c: nat, j: nat, i': nat, c': nat, k: nat,
      account: string)
    requires i < k < j < |actions|
    requires Commits(At(start, actions, j), actions[j], account) && Fenced(start, actions, i, c, j, account)
    requires Commits(At(start, actions, k), actions[k], account) && Fenced(start, actions, i', c', k, account)
    requires PhaseOf(At(start, actions, j), actions[j].who).running
    requires PhaseOf(At(start, actions, k), actions[k].who).running
    ensures i' == i
  {
    hide At, Acquires, Guarded, Checks, Commits;
    assert i' < i ==> i <= c' || c' < i < k;
    assert i < i' ==> i' <= c || c < i' < j;
  }

  lemma CommittersEqual(start: World, actions: seq<Action>, i: nat, c: nat, j: nat, c': nat, k: nat, account: string)
    requires k < j < |actions|
    requires Commits(At(start, actions, j), actions[j], account) && Fenced(start, actions, i, c, j, account)
    requires Commits(At(start, actions, k), actions[k], account) && Fenced(start, actions, i, c', k, account)
    ensures actions[k].Commit? && actions[k].who == actions[j].who
  {
    hide At, Acquires, Guarded, Checks;
  }

  /** One acquisition leads to one commit. */
  lemma CommitsOnce(start: World, actions: seq<Action>, i: nat, c: nat, k: nat, j: nat, account: string)
    requires i < k < j < |actions|
    requires Commits(At(start, actions, j), actions[j], account) && Fenced(start, actions, i, c, j, account)
    requires actions[k].Commit? && actions[k].who == actions[j].who
    ensures !Commits(At(start, actions, k), actions[k], account)
  {
    hide Act, Acquires, Checks;
    assert At(start, actions, k + 1) == Act(At(start, actions, k), actions[k]);
    if k < c { assert Guarded(At(start, actions, k + 1), actions[j].who, account); }
    if Commits(At(start, actions, k), actions[k], account) { CommitEnds(At(start, actions, k), actions[k], account); }
  }

  /** Two commits of an account, both of running jobs: the earlier came before the later one's acquisition. */
  lemma CommitsApart(start: World, actions: seq<Action>, i: nat, c: nat, k: nat, j: nat, account: string)
    requires start.phases == map[] && k < j < |actions|
    requires Commits(At(start, actions, j), actions[j], account) && Fenced(start, actions, i, c, j, account)
    requires Commits(At(start, actions, k), actions[k], account)
    requires PhaseOf(At(start, actions, j), actions[j].who).running
    requires PhaseOf(At(start, actions, k), actions[k].who).running
    ensures k < i
  {
    hide Act, Acquires, Checks, Guarded, Fenced, Commits;
    CommitIsNoAcquire(start, actions, i, c, j, k, account);
    if i < k {
      var i', c' := CommitFenced(start, actions, k, account);
      SameAcquisition(start, actions, i, c, j, i', c', k, account);
      CommittersEqual(start, actions, i, c, j, c', k, account);
      CommitsOnce(start, actions, i, c, k, j, account);
    }
  }

  /**
   * Lease fencing. When an instance's publish commits, the instance acquired the account's lease at some
   * earlier step `i` and passed the lease check at a later step `c`; up to the check it held the lease,
   * unexpired, at every step, and nobody else acquired it. The transaction then stays open for any time.
   * If its job was running at the check, nobody acquires the account before the commit either, and no
   * other running job of the account commits since the acquisition.
   */
  lemma LeaseFencing(start: World, actions: seq<Action>, j: nat, account: string) returns (i: nat, c: nat)
    requires start.phases == map[] && j < |actions| && Commits(At(start, actions, j), actions[j], account)
    ensures i < c < j
    ensures Acquires(At(start, actions, i), actions[i], account) && actions[i].who == actions[j].who
    ensures Checks(At(start, actions, c), actions[c], account) && actions[c].who == actions[j].who
    ensures forall k :: i < k <= c ==> Holds(At(start, actions, k), actions[j].who, account)
    ensures forall k :: i < k <= c ==> !Acquires(At(start, actions, k), actions[k], account)
    ensures PhaseOf(At(start, actions, j), actions[j].who).running ==>
      forall k :: i < k < j ==> !Acquires(At(start, actions, k), actions[k], account)
    ensures PhaseOf(At(start, actions, j), actions[j].who).running ==>
      forall k :: i < k < j && Commits(At(start, actions, k), actions[k], account) ==>
        !PhaseOf(At(start, actions, k), actions[k].who).running
  {
    hide Act, Acquires, Checks, Holds;
    i, c := CommitFenced(start, actions, j, account);
    forall k | i < k <= c ensures Holds(At(start, actions, k), actions[j].who, account) {
      assert Guarded(At(start, actions, k), actions[j].who, account);
    }
    if PhaseOf(At(start, actions, j), actions[j].who).running {
      forall k | i < k < j && Commits(At(start, actions, k), actions[k], account)
        ensures !PhaseOf(At(start, actions, k), actions[k].who).running
      {
        if PhaseOf(At(start, actions, k), actions[k].who).running {
          CommitsApart(start, actions, i, c, k, j, account);
        }
      }
    }
  }

  // ---------- The gap ----------

  /**
   * The open transaction of an instance is overtaken: somebody acquires the account, and the transaction,
   * neither failed nor tried before, commits all the same.
   */
  ghost predicate Overtaken(s: World, who: Instance, account: string, actions: seq<Action>, m: nat) {
    var n := |actions| - 1;
    && m < n
    && actions[n] == Commit(who)
    && (forall k :: 0 <= k < n ==> actions[k] != Commit(who) && actions[k] != Fail(who))
    && Acquires(At(s, actions, m), actions[m], account)
    && Commits(At(s, actions, n), actions[n], account)
  }

  /** An open transaction stays open until its instance commits or fails. */
  lemma OpenStays(s: World, a: Action, who: Instance)
    requires PhaseOf(s, who).Publishing? && a != Commit(who) && a != Fail(who)
    ensures PhaseOf(Act(s, a), who) == PhaseOf(s, who)
  {
    hide FailRunning, Write;
  }

  lemma {:induction false} OpenStaysOver(s: World, actions: seq<Action>, n: nat, who: Instance)
    requires PhaseOf(s, who).Publishing? && n <= |actions|
    requires forall k :: 0 <= k < n ==> actions[k] != Commit(who) && actions[k] != Fail(who)
    ensures PhaseOf(At(s, actions, n), who) == PhaseOf(s, who)
    decreases n
  {
    hide Act;
    if n > 0 {
      OpenStaysOver(s, actions, n - 1, who);
      OpenStays(At(s, actions, n - 1), actions[n - 1], who);
    }
  }

  /** Nobody overtakes the transaction of a running job. */
  lemma RunningIsFenced(s: World, who: Instance, account: string, actions: seq<Action>, m: nat)
    requires PhaseOk(s, who) && PhaseOf(s, who).Publishing? && PhaseOf(s, who).account == account
    requires VersionOf(s, PhaseOf(s, who).job) == PhaseOf(s, who).seen
    requires StatusOf(s, PhaseOf(s, who).job).Running?
    ensures !Overtaken(s, who, account, actions, m)
  {
    hide Act, Acquires;
    var n := |actions| - 1;
    if Overtaken(s, who, account, actions, m) {
      OpenStaysOver(s, actions, n, who);
      NotOvertaken(s, actions, 0, m, n, PhaseOf(s, who).job, account);
    }
  }

  lemma {:induction false} FreshInstance(used: set<Instance>) returns (n: Instance)
    ensures forall m :: m in used ==> m < n
    decreases |used|
  {
    if used == {} {
      n := 0;
    } else {
      var x :| x in used;
      var rest := FreshInstance(used - {x});
      n := if rest > x then rest else x + 1;
      forall m | m in used ensures m < n { assert m == x || m in used - {x}; }
    }
  }

  /** How a transaction is overtaken: the lease runs out, and another instance takes up another job. */
  function Overtaking(wait: nat, account: string, other: Instance, job: nat, who: Instance): seq<Action> {
    [Tick(wait), Enqueue(account), Pick(other, job), Acquire(other), Commit(who)]
  }

  lemma AtFive(s: World, a: seq<Action>)
    requires |a| == 5
    ensures At(s, a, 3) == Act(Act(Act(s, a[0]), a[1]), a[2])
    ensures At(s, a, 4) == Act(At(s, a, 3), a[3])
  {
    hide Act;
    assert At(s, a, 1) == Act(At(s, a, 0), a[0]);
    assert At(s, a, 2) == Act(At(s, a, 1), a[1]);
  }

  lemma StoppedIsOvertaken(s: World, who: Instance) returns (actions: seq<Action>)
    requires PhaseOk(s, who) && PhaseOf(s, who).Publishing?
    requires VersionOf(s, PhaseOf(s, who).job) == PhaseOf(s, who).seen
    requires !StatusOf(s, PhaseOf(s, who).job).Running?
    ensures Overtaken(s, who, PhaseOf(s, who).account, actions, 3)
  {
    var p := PhaseOf(s, who);
    var other := FreshInstance(s.phases.Keys);
    var n := |s.jobs|;
    var wait := if p.account in s.leases then s.leases[p.account].expiresAt else 0;
    actions := Overtaking(wait, p.account, other, n, who);
    AtFive(s, actions);
    assert who in s.phases.Keys && other !in s.phases && other != who;
    var picked := PickedWorld(s, p.account, other, wait);
    assert At(s, actions, 3) == picked;
    assert Free(picked.leases, p.account, picked.now);
  }

  /** The world right before the overtaking acquisition. */
  function PickedWorld(s: World, account: string, other: Instance, wait: nat): World {
    World(s.now + wait, s.leases, s.jobs + [Job(account, Queued, 0)], s.phases[other := Picked(|s.jobs|, true)])
  }

  /**
   * When fencing covers the commit. The open publish transaction of an instance, ready to commit, can be
   * overtaken by an acquisition of its account and still commit exactly when its job row is not running:
   * then the acquisition does not write that row, and nothing makes the two transactions conflict.
   */
  lemma OvertakenExact(s: World, who: Instance)
    requires PhaseOk(s, who) && PhaseOf(s, who).Publishing?
    requires VersionOf(s, PhaseOf(s, who).job) == PhaseOf(s, who).seen
    ensures (exists actions, m :: Overtaken(s, who, PhaseOf(s, who).account, actions, m)) <==>
      !StatusOf(s, PhaseOf(s, who).job).Running?
  {
    hide Overtaken;
    var account := PhaseOf(s, who).account;
    if StatusOf(s, PhaseOf(s, who).job).Running? {
      forall actions, m: nat ensures !Overtaken(s, who, account, actions, m) {
        RunningIsFenced(s, who, account, actions, m);
      }
    } else {
      var actions := StoppedIsOvertaken(s, who);
      assert Overtaken(s, who, account, actions, 3);
    }
  }

  // ---------- How a running job stops ----------

  /** The job an instance is at, once it has its lease. */
  function JobOf(s: World, who: Instance): Option<nat> {
    match PhaseOf(s, who)
    case Working(job, _, _) => Some(job)
    case Publishing(job, _, _, _) => Some(job)
    case Failing(job, _) => Some(job)
    case _ => None
  }

  /** The instance has marked its job as running. */
  predicate Started(s: World, who: Instance) {
    PhaseOf(s, who).Publishing? || (PhaseOf(s, who).Working? && PhaseOf(s, who).started)
  }

  /** Another instance at the same job ends it. */
  predicate Stops(s: World, a: Action, who: Instance, job: nat) {
    && (a.Fail? || a.Commit?)
    && a.who != who
    && JobOf(s, a.who) == Some(job)
    && StatusOf(s, job).Running?
    && !StatusOf(Act(s, a), job).Running?
  }

  lemma StoppedBackwards(s: World, a: Action, who: Instance, account: string)
    requires PhaseOk(s, who) && PhaseOk(Act(s, a), who)
    requires Guarded(Act(s, a), who, account) && Started(Act(s, a), who)
    requires !StatusOf(Act(s, a), PhaseOf(Act(s, a), who).job).Running?
    ensures var job := PhaseOf(Act(s, a), who).job;
      || Stops(s, a, who, job)
      || (Guarded(s, who, account) && Started(s, who) && PhaseOf(s, who).job == job && !StatusOf(s, job).Running?)
  {
    GuardedBackwards(s, a, who, account);
    if Guarded(s, who, account) { GuardExcludes(s, a, who, account); }
    hide Extended, Released, Holding, Free;
  }

  /**
   * How the job of an instance that holds its lease can have stopped: only by another instance that took
   * up the same job before it lost its own lease, and that ends it late.
   */
  lemma {:induction false} StoppedByOther(start: World, actions: seq<Action>, c: nat, who: Instance, account: string)
      returns (k: nat)
    requires start.phases == map[] && c <= |actions|
    requires Guarded(At(start, actions, c), who, account) && Started(At(start, actions, c), who)
    requires !StatusOf(At(start, actions, c), PhaseOf(At(start, actions, c), who).job).Running?
    ensures k < c && Stops(At(start, actions, k), actions[k], who, PhaseOf(At(start, actions, c), who).job)
    decreases c
  {
    hide Act, Guarded, Stops, StatusOf;
    if c == 0 {
      NobodyWorks(start, who, account);
      assert false;
    } else {
      var before := At(start, actions, c - 1);
      ConsistentAt(start, actions, c - 1);
      ConsistentAt(start, actions, c);
      assert PhaseOk(before, who) && PhaseOk(At(start, actions, c), who);
      StoppedBackwards(before, actions[c - 1], who, account);
      if Stops(before, actions[c - 1], who, PhaseOf(At(start, actions, c), who).job) {
        k := c - 1;
      } else {
        k := StoppedByOther(start, actions, c - 1, who, account);
      }
    }
  }

  lemma NobodyWorks(s: World, who: Instance, account: string)
    requires s.phases == map[]
    ensures !Guarded(s, who, account)
  {
  }

  const START := World(0, map[], [], map[])

  /** Two instances pick the same queued job; the first loses its lease and fails the job of the second. */
  const LATE_FAILURE := [
    Enqueue("a"), Pick(1, 0), Pick(0, 0), Acquire(1), Tick(LEASE_MS), Acquire(0), Start(0), Start(1), Renew(1),
    Fail(1), Check(0)]

  lemma AtNext(s: World, a: seq<Action>, n: nat)
    requires n < |a|
    ensures At(s, a, n + 1) == Act(At(s, a, n), a[n])
  {
    hide Act;
  }

  /** The first five steps: both instances have picked the job, and the first one's lease has run out. */
  lemma BothPicked()
    ensures var s := At(START, LATE_FAILURE, 5);
      && s.now == LEASE_MS && s.leases == map["a" := Lease(1, LEASE_MS)] && s.jobs == [Job("a", Queued, 0)]
      && PhaseOf(s, 1) == Working(0, "a", false) && PhaseOf(s, 0) == Picked(0, true)
  {
    assert At(START, LATE_FAILURE, 0) == START;
    hide At, Released;
    AtNext(START, LATE_FAILURE, 0);
    AtNext(START, LATE_FAILURE, 1);
    AtNext(START, LATE_FAILURE, 2);
    AtNext(START, LATE_FAILURE, 3);
    AtNext(START, LATE_FAILURE, 4);
    var s1 := At(START, LATE_FAILURE, 1);
    assert s1 == World(0, map[], [Job("a", Queued, 0)], map[]);
    var s2 := At(START, LATE_FAILURE, 2);
    assert s2 == Enter(s1, 1, Picked(0, true));
    var s3 := At(START, LATE_FAILURE, 3);
    assert s3 == Enter(s2, 0, Picked(0, true));
    var s4 := At(START, LATE_FAILURE, 4);
    assert FailRunning(s3.jobs, "a") == s3.jobs;
    assert s4.leases == map["a" := Lease(1, LEASE_MS)] && s4.jobs == s3.jobs;
    assert At(START, LATE_FAILURE, 5) == s4.(now := LEASE_MS);
  }

  /** The next three: the second instance has the lease, and both have marked the job as running. */
  lemma BothStarted()
    ensures var s := At(START, LATE_FAILURE, 8);
      && s.now == LEASE_MS && s.leases == map["a" := Lease(0, 2 * LEASE_MS)] && s.jobs == [Job("a", Running, 2)]
      && PhaseOf(s, 0) == Working(0, "a", true) && PhaseOf(s, 1) == Working(0, "a", true)
  {
    hide At, Released;
    BothPicked();
    AtNext(START, LATE_FAILURE, 5);
    AtNext(START, LATE_FAILURE, 6);
    AtNext(START, LATE_FAILURE, 7);
    var s5, s6 := At(START, LATE_FAILURE, 5), At(START, LATE_FAILURE, 6);
    assert FailRunning(s5.jobs, "a") == s5.jobs;
    assert s6.leases == map["a" := Lease(0, 2 * LEASE_MS)] && s6.jobs == s5.jobs;
    assert PhaseOf(s6, 0) == Working(0, "a", false) && PhaseOf(s6, 1) == Working(0, "a", false);
    var s7 := At(START, LATE_FAILURE, 7);
    assert s7.jobs == [Job("a", Running, 1)] && PhaseOf(s7, 0) == Working(0, "a", true);
  }

  /** The last three: the first instance finds its lease lost and fails the job; the second checks its own. */
  lemma LateFailure()
    ensures var s := At(START, LATE_FAILURE, 11);
      s.jobs == [Job("a", Failed, 3)] && PhaseOf(s, 0) == Publishing(0, "a", 3, false)
  {
    hide At, FailRunning, Extended, Released;
    BothStarted();
    AtNext(START, LATE_FAILURE, 8);
    AtNext(START, LATE_FAILURE, 9);
    AtNext(START, LATE_FAILURE, 10);
    var s9 := At(START, LATE_FAILURE, 9);
    assert PhaseOf(s9, 1) == Failing(0, "a") && PhaseOf(s9, 0) == Working(0, "a", true);
    var s10 := At(START, LATE_FAILURE, 10);
    assert s10.jobs == [Job("a", Failed, 3)] && PhaseOf(s10, 0) == Working(0, "a", true);
  }

  /** The gap is reachable: a lease check that passes while the job was failed by another instance. */
  lemma GapIsReachable()
    ensures var s := At(START, LATE_FAILURE, |LATE_FAILURE|); var p := PhaseOf(s, 0);
      && PhaseOk(s, 0)
      && p.Publishing? && !p.running && VersionOf(s, p.job) == p.seen
      && exists actions, m :: Overtaken(s, 0, p.account, actions, m)
  {
    hide At, Overtaken;
    LateFailure();
    OvertakenExact(At(START, LATE_FAILURE, |LATE_FAILURE|), 0);
  }
}
