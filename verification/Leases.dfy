/**
 * The job lease of a provider account: several service instances, one clock, arbitrary delays. Each
 * database statement is one step, except the publish transaction: it is open from its lease check to its
 * commit, while the clock runs and the other instances go on. An instance runs at most one job at a time
 * (its `busy` flag).
 */
module Leases {
  /** A service instance; its owner id is random and never reused. */
  type Instance = nat

  datatype Lease = Lease(owner: Instance, expiresAt: nat)

  const LEASE_MS: nat := 300000

  datatype JobStatus = Queued | Running | Completed | Failed

  /** A reconciliation batch row, as far as the worker loop looks at it; every write is a new version. */
  datatype Job = Job(account: string, status: JobStatus, version: nat)

  /**
   * Where an instance is in `work`. A picked job was read before the lease is asked for. A publishing
   * instance has its transaction open: the lease check passed, and its snapshot holds the job row at the
   * version seen, running or not.
   */
  datatype Phase =
    | Idle
    | Picked(job: nat, queued: bool)
    | Working(job: nat, account: string, started: bool)
    | Publishing(job: nat, account: string, seen: nat, running: bool)
    | Failing(job: nat, account: string)
    | Releasing(account: string)

  datatype World = World(now: nat, leases: map<string, Lease>, jobs: seq<Job>, phases: map<Instance, Phase>)

  /**
   * One step. `Check` opens the publish transaction, `Commit` tries to commit it, and `Fail` is the end of
   * a job by an error, which rolls an open transaction back.
   */
  datatype Action =
    | Tick(ms: nat)
    | Enqueue(account: string)
    | Pick(who: Instance, job: nat)
    | Acquire(who: Instance)
    | Start(who: Instance)
    | StorePage(who: Instance)
    | Renew(who: Instance)
    | Check(who: Instance)
    | Commit(who: Instance)
    | Fail(who: Instance)
    | Release(who: Instance)
    | LoseRelease(who: Instance)

  predicate Free(leases: map<string, Lease>, account: string, now: nat) {
    account !in leases || leases[account].expiresAt <= now
  }

  /** The instance owns the account's lease, and the lease has not expired. */
  predicate Holding(leases: map<string, Lease>, who: Instance, account: string, now: nat) {
    account in leases && leases[account].owner == who && leases[account].expiresAt > now
  }

  function Extended(leases: map<string, Lease>, who: Instance, account: string, now: nat): map<string, Lease> {
    leases[account := Lease(who, now + LEASE_MS)]
  }

  function Released(leases: map<string, Lease>, who: Instance, account: string): map<string, Lease> {
    if account in leases && leases[account].owner == who then leases - {account} else leases
  }

  function Written(job: Job, status: JobStatus): Job {
    job.(status := status, version := job.version + 1)
  }

  function Write(jobs: seq<Job>, job: nat, status: JobStatus): seq<Job> {
    if job < |jobs| then jobs[job := Written(jobs[job], status)] else jobs
  }

  function FailOne(job: Job, account: string): Job {
    if job.account == account && job.status.Running? then Written(job, Failed) else job
  }

  /** The account's running jobs have failed: whoever ran them lost the lease. */
  function FailRunning(jobs: seq<Job>, account: string): (r: seq<Job>)
    ensures |r| == |jobs|
    ensures forall k :: 0 <= k < |r| ==> r[k] == FailOne(jobs[k], account)
  {
    seq(|jobs|, k requires 0 <= k < |jobs| => FailOne(jobs[k], account))
  }

  /** No account but this one has its lease changed. */
  ghost predicate OnlyLeaseOf(account: string, a: map<string, Lease>, b: map<string, Lease>) {
    forall other | other != account :: (other in a <==> other in b) && (other in a ==> a[other] == b[other])
  }

  /** The lease and batch tables, as the service's statements change them. */
  class LeaseTable {
    var leases: map<string, Lease>
    var jobs: seq<Job>

    constructor ()
      ensures leases == map[] && jobs == []
    {
      leases, jobs := map[], [];
    }

    /**
     * The leasing transaction of `work`. The caller is refused exactly while somebody's lease is
     * unexpired; otherwise it is the one holder for five minutes, and no job of the account is running.
     */
    method Acquire(who: Instance, account: string, now: nat) returns (leased: bool)
      modifies this
      ensures leased == Free(old(leases), account, now)
      ensures leased <==> !(account in old(leases) && old(leases)[account].expiresAt > now)
      ensures leased <==> forall owner :: !Holding(old(leases), owner, account, now)
      ensures leased ==> account in leases && leases[account] == Lease(who, now + 300000)
      ensures leased ==> forall owner, later: nat ::
        Holding(leases, owner, account, later) <==> owner == who && later < now + 300000
      ensures leased ==> |jobs| == |old(jobs)|
      ensures leased ==> forall k | 0 <= k < |jobs| ::
        if old(jobs)[k].account == account && old(jobs)[k].status.Running?
        then jobs[k] == Job(account, Failed, old(jobs)[k].version + 1) else jobs[k] == old(jobs)[k]
      ensures leased ==> forall k :: 0 <= k < |jobs| && jobs[k].account == account ==> !jobs[k].status.Running?
      ensures OnlyLeaseOf(account, old(leases), leases)
      ensures !leased ==> leases == old(leases) && jobs == old(jobs)
      ensures leased ==> leases == Extended(old(leases), who, account, now) && jobs == FailRunning(old(jobs), account)
    {
      if account in leases && leases[account].expiresAt > now {
        assert Holding(leases, leases[account].owner, account, now);
        return false;
      }
      leases := leases[account := Lease(who, now + LEASE_MS)];
      for k := 0 to |jobs|
        invariant |jobs| == |old(jobs)|
        invariant leases == Extended(old(leases), who, account, now)
        invariant forall j :: 0 <= j < k ==> jobs[j] == FailOne(old(jobs)[j], account)
        invariant forall j :: k <= j < |jobs| ==> jobs[j] == old(jobs)[j]
      {
        if jobs[k].account == account && jobs[k].status == Running {
          jobs := jobs[k := Job(account, Failed, jobs[k].version + 1)];
        }
      }
      leased := true;
    }

    /** `renew(id)`: false stands for WORKER_LEASE_LOST. A kept lease runs for another five minutes. */
    method Renew(who: Instance, account: string, now: nat) returns (kept: bool)
      modifies `leases
      ensures kept == Holding(old(leases), who, account, now)
      ensures kept <==>
        account in old(leases) && old(leases)[account].owner == who && old(leases)[account].expiresAt > now
      ensures kept ==> account in leases && leases[account] == Lease(who, now + 300000)
      ensures kept ==> forall owner, later: nat ::
        Holding(leases, owner, account, later) <==> owner == who && later < now + 300000
      ensures OnlyLeaseOf(account, old(leases), leases)
      ensures leases == if kept then Extended(old(leases), who, account, now) else old(leases)
    {
      var count := 0;
      if account in leases && leases[account].owner == who && leases[account].expiresAt > now {
        leases := leases[account := Lease(who, now + LEASE_MS)];
        count := 1;
      }
      kept := count != 0;
    }

    /** The clean-up of `work`: the caller's own lease is deleted, anybody else's stays. */
    method Release(who: Instance, account: string)
      modifies `leases
      ensures forall owner, at: nat ::
        Holding(leases, owner, account, at) <==> owner != who && Holding(old(leases), owner, account, at)
      ensures account in leases <==> account in old(leases) && old(leases)[account].owner != who
      ensures OnlyLeaseOf(account, old(leases), leases)
      ensures leases == Released(old(leases), who, account)
    {
      if account in leases && leases[account].owner == who {
        leases := leases - {account};
      }
    }

    method SetStatus(job: nat, status: JobStatus)
      modifies `jobs
      ensures jobs == Write(old(jobs), job, status)
    {
      if job < |jobs| { jobs := jobs[job := Job(jobs[job].account, status, jobs[job].version + 1)]; }
    }
  }

  // ---------- Steps ----------

  function PhaseOf(s: World, who: Instance): Phase {
    if who in s.phases then s.phases[who] else Idle
  }

  predicate Holds(s: World, who: Instance, account: string) {
    Holding(s.leases, who, account, s.now)
  }

  function Enter(s: World, who: Instance, phase: Phase): World {
    s.(phases := s.phases[who := phase])
  }

  function StatusOf(s: World, job: nat): JobStatus {
    if job < |s.jobs| then s.jobs[job].status else Failed
  }

  function VersionOf(s: World, job: nat): nat {
    if job < |s.jobs| then s.jobs[job].version else 0
  }

  predicate Acquires(s: World, a: Action, account: string) {
    && a.Acquire?
    && PhaseOf(s, a.who).Picked?
    && var job := PhaseOf(s, a.who).job;
      job < |s.jobs| && s.jobs[job].account == account && Free(s.leases, account, s.now)
  }

  /** The publish transaction opens: its snapshot shows the instance's own unexpired lease. */
  predicate Checks(s: World, a: Action, account: string) {
    && a.Check?
    && PhaseOf(s, a.who).Working?
    && PhaseOf(s, a.who).started
    && PhaseOf(s, a.who).account == account
    && Holds(s, a.who, account)
  }

  /**
   * The publish transaction commits. It writes the job row last, so it does so only if nobody wrote that
   * row since its snapshot; otherwise it is aborted as not serializable.
   */
  predicate Commits(s: World, a: Action, account: string) {
    && a.Commit?
    && PhaseOf(s, a.who).Publishing?
    && PhaseOf(s, a.who).account == account
    && VersionOf(s, PhaseOf(s, a.who).job) == PhaseOf(s, a.who).seen
  }

  function Act(s: World, a: Action): World {
    match a
    case Tick(ms) => s.(now := s.now + ms)
    case Enqueue(account) => s.(jobs := s.jobs + [Job(account, Queued, 0)])
    case Pick(who, job) =>
      if PhaseOf(s, who).Idle? && (StatusOf(s, job).Queued? || StatusOf(s, job).Running?)
      then Enter(s, who, Picked(job, StatusOf(s, job).Queued?))
      else s
    case Acquire(who) => ActAcquire(s, who)
    case Start(who) =>
      var p := PhaseOf(s, who);
      if p.Working? && !p.started
      then Enter(s.(jobs := Write(s.jobs, p.job, Running)), who, Working(p.job, p.account, true))
      else s
    case StorePage(who) =>
      var p := PhaseOf(s, who);
      if p.Working? && p.started then s.(jobs := Write(s.jobs, p.job, StatusOf(s, p.job))) else s
    case Renew(who) =>
      var p := PhaseOf(s, who);
      if !(p.Working? && p.started) then s
      else if Holds(s, who, p.account) then s.(leases := Extended(s.leases, who, p.account, s.now))
      else Enter(s, who, Failing(p.job, p.account))
    case Check(who) =>
      var p := PhaseOf(s, who);
      if !(p.Working? && p.started) then s
      else if Holds(s, who, p.account)
      then Enter(s, who, Publishing(p.job, p.account, VersionOf(s, p.job), StatusOf(s, p.job).Running?))
      else Enter(s, who, Failing(p.job, p.account))
    case Commit(who) => ActCommit(s, who)
    case Fail(who) =>
      var p := PhaseOf(s, who);
      if !(p.Working? || p.Publishing? || p.Failing?) then s
      else
        var jobs := if StatusOf(s, p.job).Failed? then s.jobs else Write(s.jobs, p.job, Failed);
        Enter(s.(jobs := jobs), who, Releasing(p.account))
    case Release(who) =>
      var p := PhaseOf(s, who);
      if p.Releasing? then Enter(s.(leases := Released(s.leases, who, p.account)), who, Idle) else s
    case LoseRelease(who) =>
      if PhaseOf(s, who).Releasing? then Enter(s, who, Idle) else s
  }

  /** A leased job is run if it was queued when it was picked, and only released if it was running. */
  function ActAcquire(s: World, who: Instance): World {
    var p := PhaseOf(s, who);
    if !p.Picked? || p.job >= |s.jobs| then s
    else
      var account := s.jobs[p.job].account;
      if Free(s.leases, account, s.now)
      then Enter(s.(leases := Extended(s.leases, who, account, s.now), jobs := FailRunning(s.jobs, account)), who,
                 if p.queued then Working(p.job, account, false) else Releasing(account))
      else Enter(s, who, Idle)
  }

  /** An aborted transaction may be tried again from its lease check. */
  function ActCommit(s: World, who: Instance): World {
    var p := PhaseOf(s, who);
    if !p.Publishing? then s
    else if Commits(s, Commit(who), p.account)
    then Enter(s.(jobs := Write(s.jobs, p.job, Completed)), who, Releasing(p.account))
    else Enter(s, who, Working(p.job, p.account, true))
  }

  /** The world after the first `n` steps. */
  function At(start: World, actions: seq<Action>, n: nat): World
    requires n <= |actions|
  {
    if n == 0 then start else Act(At(start, actions, n - 1), actions[n - 1])
  }

  /** The service instances at work on one lease table, under one clock. */
  class Cluster {
    var now: nat
    var phases: map<Instance, Phase>
    const table: LeaseTable

    ghost function State(): World
      reads this, table
    {
      World(now, table.leases, table.jobs, phases)
    }

    constructor ()
      ensures fresh(table)
      ensures State() == World(0, map[], [], map[])
    {
      now, phases := 0, map[];
      table := new LeaseTable();
    }

    function Phase(who: Instance): Phase
      reads this
    {
      if who in phases then phases[who] else Idle
    }

    function Status(job: nat): JobStatus
      reads table
    {
      if job < |table.jobs| then table.jobs[job].status else Failed
    }

    method TakeAcquire(who: Instance)
      modifies this, table
      ensures State() == ActAcquire(old(State()), who)
    {
      var p := Phase(who);
      if p.Picked? && p.job < |table.jobs| {
        var account := table.jobs[p.job].account;
        var leased := table.Acquire(who, account, now);
        var next := if p.queued then Working(p.job, account, false) else Releasing(account);
        phases := phases[who := if leased then next else Idle];
      }
    }

    method TakeCommit(who: Instance)
      modifies this, table
      ensures State() == ActCommit(old(State()), who)
    {
      var p := Phase(who);
      if p.Publishing? {
        var version := if p.job < |table.jobs| then table.jobs[p.job].version else 0;
        if version == p.seen {
          table.SetStatus(p.job, Completed);
          phases := phases[who := Releasing(p.account)];
        } else {
          phases := phases[who := Working(p.job, p.account, true)];
        }
      }
    }

    /** A step of a job that has its lease. */
    method TakeWork(a: Action)
      requires a.Start? || a.StorePage? || a.Renew? || a.Check? || a.Fail?
      modifies this, table
      ensures State() == Act(old(State()), a)
    {
      var p := Phase(a.who);
      match a {
        case Start(who) =>
          if p.Working? && !p.started {
            table.SetStatus(p.job, Running);
            phases := phases[who := Working(p.job, p.account, true)];
          }
        case StorePage(who) =>
          if p.Working? && p.started { table.SetStatus(p.job, Status(p.job)); }
        case Renew(who) =>
          if p.Working? && p.started {
            var kept := table.Renew(who, p.account, now);
            if !kept { phases := phases[who := Failing(p.job, p.account)]; }
          }
        case Check(who) =>
          if p.Working? && p.started {
            var version := if p.job < |table.jobs| then table.jobs[p.job].version else 0;
            var mine := p.account in table.leases && table.leases[p.account].owner == who
              && table.leases[p.account].expiresAt > now;
            var open := Publishing(p.job, p.account, version, Status(p.job).Running?);
            phases := phases[who := if mine then open else Failing(p.job, p.account)];
          }
        case Fail(who) =>
          if p.Working? || p.Publishing? || p.Failing? {
            if !Status(p.job).Failed? { table.SetStatus(p.job, Failed); }
            phases := phases[who := Releasing(p.account)];
          }
      }
    }

    /** One step of one instance, through the table's statements. */
    method Take(a: Action)
      modifies this, table
      ensures State() == Act(old(State()), a)
    {
      match a {
        case Tick(ms) => now := now + ms;
        case Enqueue(account) => table.jobs := table.jobs + [Job(account, Queued, 0)];
        case Pick(who, job) =>
          if Phase(who).Idle? && (Status(job).Queued? || Status(job).Running?) {
            phases := phases[who := Picked(job, Status(job).Queued?)];
          }
        case Acquire(who) => TakeAcquire(who);
        case Commit(who) => TakeCommit(who);
        case Release(who) =>
          if Phase(who).Releasing? {
            table.Release(who, Phase(who).account);
            phases := phases[who := Idle];
          }
        case LoseRelease(who) =>
          if Phase(who).Releasing? { phases := phases[who := Idle]; }
        case _ => TakeWork(a);
      }
    }

    /** Any interleaving of the instances' steps. */
    method TakeAll(actions: seq<Action>)
      modifies this, table
      ensures State() == At(old(State()), actions, |actions|)
    {
      hide Act;
      for k := 0 to |actions|
        invariant State() == At(old(State()), actions, k)
      {
        Take(actions[k]);
      }
    }
  }
}
