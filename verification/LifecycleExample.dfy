/** Runs that show the theorems to be exact: one job receives all three terminal writes, each with a different verdict;
    another is stranded and keeps its runner from finishing. */
module LifecycleExample {
  import opened Protocol
  import opened JobTable
  import opened Runner
  import opened Lifecycle
  import opened LifecycleTheorems
  import opened LifecycleProgress
  import JM = JobManager
  import VMs = VmManager

  const JOB: Uuid := 7
  const CONN: Uuid := 100
  const SMALL := VM(2, 256, X86_64Linux)

  function RowWith(status: JobStatus, runner: Option<Uuid>): Rows {
    map[JOB := Job(X86_64Linux, status, runner, 2, 256, None, None)]
  }

  function Event(status: JobStatus): JM.JobStatusEvent {
    JM.JobStatusEvent(JOB, status)
  }

  const KNOWN := JM.Manager(map[JOB := Queued], [Event(Queued)])
  const RUNS := JM.Manager(map[JOB := Running], [Event(Queued), Event(Running)])
  const ENDED := JM.Manager(map[JOB := Complete(Success)], [Event(Queued), Event(Running), Event(Complete(Success))])

  function ProcWith(jm: JM.Manager, read: nat, vms: VMs.Vms, handled: nat, phase: Phase): Proc {
    Proc(X86_64Linux, Some(CONN), jm, read, vms, handled, phase, false, false)
  }

  function WorldWith(rows: Rows, owed: set<Uuid>, expired: map<Uuid, Job>, proc: Proc, soup: map<nat,
                     Envelope>): World {
    World(rows, map[CONN := X86_64Linux], {CONN}, owed, {}, expired, map[], map[0 := proc], 1, soup)
  }

  const VM_RUNS := VMs.Vms(map[JOB := 0], map[0 := VMs.Task(JOB, SMALL, false)], 1, [])
  const VM_ENDED :=
    VMs.Vms(map[JOB := 0], map[0 := VMs.Task(JOB, SMALL, true)], 1, [VMs.Completion(0, JOB, VMs.ExitSuccess)])

  const FRESH := ProcWith(JM.EMPTY, 0, VMs.EMPTY, 0, Idle)
  const QUEUED := RowWith(Queued, None)
  const RUNNING := RowWith(Running, Some(CONN))
  const OFFER := ToRunner(CONN, NewJobAvailable(JOB, SMALL))
  const CLAIM := ToServer(CONN, ClaimJob(JOB, SMALL))
  const CLAIMED := ToRunner(CONN, JobClaimed(JOB, SMALL))
  const REPORT := ToServer(CONN, UpdateJobStatus(JOB, Complete(Success)))

  /** Some run of this length leads to the state, and passed this many terminal milestones of the job. */
  ghost predicate Reached(s: World, writes: nat) {
    exists run :: Valid(run) && After(run) == s && Count(run, TERMINAL, JOB) == writes
  }

  ghost predicate Leads(s: World, a: Action, t: World) {
    Enabled(s, a) && Apply(s, a) == t
  }

  lemma Step(s: World, writes: nat, a: Action, t: World)
    requires Reached(s, writes) && Leads(s, a, t)
    ensures Reached(t, writes + if exists k | k in TERMINAL :: Happens(s, a, k, JOB) then 1 else 0)
  {
    hide Enabled, Apply, Happens;
    var run :| Valid(run) && After(run) == s && Count(run, TERMINAL, JOB) == writes;
    var more := run + [a];
    assert more[..|more| - 1] == run;
    assert Valid(more) && After(more) == t;
  }

  // ---------- The states on the way ----------

  const STARTED := INIT.(procs := map[0 := NewProc(X86_64Linux)], started := 1)
  const CONNECTED := WorldWith(map[], {CONN}, map[], FRESH, map[])
  const CREATED := WorldWith(QUEUED, {CONN}, map[], FRESH, map[])
  const OFFERED := WorldWith(QUEUED, {}, map[], FRESH, map[0 := OFFER])
  const WANTED := WorldWith(QUEUED, {}, map[], FRESH, map[1 := CLAIM])
  const WON := WorldWith(RUNNING, {}, map[], FRESH, map[2 := CLAIMED])

  /** The row is running and nothing is in flight; only the process moves. */
  function Local(proc: Proc): World {
    WorldWith(RUNNING, {}, map[], proc, map[])
  }

  const REGISTERED := ProcWith(KNOWN, 0, VMs.EMPTY, 0, Registered(JOB, SMALL))
  const LAUNCHED := ProcWith(KNOWN, 0, VM_RUNS, 0, Launched(JOB))
  const BUSY := ProcWith(RUNS, 0, VM_RUNS, 0, Idle)
  const EXITED := ProcWith(RUNS, 0, VM_ENDED, 0, Idle)

  function Done(read: nat): Proc {
    ProcWith(ENDED, read, VM_ENDED, 1, Idle)
  }

  const REPORTED := WorldWith(RUNNING, {}, map[], Done(3), map[3 := REPORT])
  const SCANNED := WorldWith(RUNNING, {}, RUNNING, Done(3), map[3 := REPORT])
  const CANCELLED := WorldWith(RowWith(Complete(Cancelled), Some(CONN)), {}, RUNNING, Done(3), map[3 := REPORT])
  const SUCCEEDED := WorldWith(RowWith(Complete(Success), Some(CONN)), {CONN}, RUNNING, Done(3), map[])
  const TIMED_OUT := WorldWith(RowWith(Complete(TimedOut), Some(CONN)), {CONN}, map[], Done(3), map[])

  // ---------- The steps ----------

  lemma Offered()
    ensures Leads(INIT, StartRunner(X86_64Linux), STARTED)
    ensures Leads(STARTED, Connect(0, CONN), CONNECTED)
  {
    assert NewProc(X86_64Linux).(conn := Some(CONN)) == FRESH;
  }

  lemma Created()
    ensures Leads(CONNECTED, CreateJob(JOB, SMALL, false), CREATED)
  {
  }

  lemma Queue()
    ensures Leads(CREATED, CheckQueue(CONN, {}, 0), OFFERED)
  {
    assert QueueCandidates(QUEUED, X86_64Linux, {}) == {JOB};
  }

  lemma Wants()
    ensures Leads(OFFERED, RunnerReceive(0, 0, true, 1), WANTED)
  {
  }

  lemma Wins()
    ensures Leads(WANTED, ServerReceive(1, 2), WON)
    ensures forall k | k in TERMINAL :: !Happens(WANTED, ServerReceive(1, 2), k, JOB)
  {
  }

  lemma Registers()
    ensures Leads(WON, RunnerReceive(0, 2, false, 3), Local(REGISTERED))
  {
    assert JM.EMPTY.jobs[JOB := Queued] == KNOWN.jobs && JM.EMPTY.log + [Event(Queued)] == KNOWN.log;
    assert RegisterClaimed(FRESH, JOB, SMALL) == REGISTERED;
  }

  lemma Launches()
    ensures Leads(Local(REGISTERED), Action.LaunchVm(0), Local(LAUNCHED))
  {
  }

  lemma Runs()
    ensures Leads(Local(LAUNCHED), SetRunning(0), Local(BUSY))
  {
    assert KNOWN.jobs[JOB := Running] == RUNS.jobs && KNOWN.log + [Event(Running)] == RUNS.log;
    assert MarkRunning(LAUNCHED) == BUSY;
  }

  lemma Exits()
    ensures Leads(Local(BUSY), VmExits(0, 0, VMs.ExitSuccess), Local(EXITED))
  {
    assert VMs.Exit(VM_RUNS, 0, VMs.ExitSuccess).tasks == VM_ENDED.tasks;
    assert VMs.Exit(VM_RUNS, 0, VMs.ExitSuccess) == VM_ENDED;
  }

  lemma Completes()
    ensures Leads(Local(EXITED), VmCompletion(0), Local(Done(0)))
  {
    assert RUNS.jobs[JOB := Complete(Success)] == ENDED.jobs && RUNS.log + [Event(Complete(Success))] == ENDED.log;
    assert HandleCompletion(EXITED) == Done(0);
  }

  lemma Reads()
    ensures Leads(Local(Done(0)), StatusEvent(0, 3), Local(Done(1)))
    ensures Leads(Local(Done(1)), StatusEvent(0, 3), Local(Done(2)))
  {
  }

  lemma Reports()
    ensures Leads(Local(Done(2)), StatusEvent(0, 3), REPORTED)
  {
  }

  lemma Scans()
    ensures Leads(REPORTED, ScanExpired({JOB}), SCANNED)
  {
  }

  lemma Cancels()
    ensures Leads(SCANNED, CancelRequest(JOB, false, 4), CANCELLED)
            && Happens(SCANNED, CancelRequest(JOB, false, 4), CancelWon, JOB)
  {
  }

  lemma Hears()
    ensures Leads(CANCELLED, ServerReceive(3, 4), SUCCEEDED)
            && Happens(CANCELLED, ServerReceive(3, 4), ReportWritten, JOB)
  {
  }

  lemma TimesOut()
    ensures Leads(SUCCEEDED, ExpireJob(JOB, false, 4), TIMED_OUT)
            && Happens(SUCCEEDED, ExpireJob(JOB, false, 4), TimeoutWritten, JOB)
  {
  }

  // ---------- The run ----------

  lemma Quiet(s: World, writes: nat, a: Action, t: World)
    requires Reached(s, writes) && Leads(s, a, t)
    requires !a.ServerReceive? && !a.CancelRequest? && !a.ExpireJob?
    ensures Reached(t, writes)
  {
    assert forall k | k in TERMINAL :: !Happens(s, a, k, JOB);
    hide Enabled, Apply, Happens;
    Step(s, writes, a, t);
  }

  lemma Start()
    ensures Reached(INIT, 0)
  {
    assert Valid([]) && After([]) == INIT && Count([], TERMINAL, JOB) == 0;
  }

  lemma Claimed()
    ensures Reached(WON, 0)
  {
    hide Leads, Happens, Reached;
    Start();
    Offered();
    Quiet(INIT, 0, StartRunner(X86_64Linux), STARTED);
    Quiet(STARTED, 0, Connect(0, CONN), CONNECTED);
    Created();
    Quiet(CONNECTED, 0, CreateJob(JOB, SMALL, false), CREATED);
    Queue();
    Quiet(CREATED, 0, CheckQueue(CONN, {}, 0), OFFERED);
    Wants();
    Quiet(OFFERED, 0, RunnerReceive(0, 0, true, 1), WANTED);
    Wins();
    Step(WANTED, 0, ServerReceive(1, 2), WON);
  }

  lemma Ran()
    requires Reached(WON, 0)
    ensures Reached(REPORTED, 0)
  {
    hide Leads, Happens, Reached;
    Registers();
    Quiet(WON, 0, RunnerReceive(0, 2, false, 3), Local(REGISTERED));
    Launches();
    Quiet(Local(REGISTERED), 0, Action.LaunchVm(0), Local(LAUNCHED));
    Runs();
    Quiet(Local(LAUNCHED), 0, SetRunning(0), Local(BUSY));
    Exits();
    Quiet(Local(BUSY), 0, VmExits(0, 0, VMs.ExitSuccess), Local(EXITED));
    Completes();
    Quiet(Local(EXITED), 0, VmCompletion(0), Local(Done(0)));
    Reads();
    Quiet(Local(Done(0)), 0, StatusEvent(0, 3), Local(Done(1)));
    Quiet(Local(Done(1)), 0, StatusEvent(0, 3), Local(Done(2)));
    Reports();
    Quiet(Local(Done(2)), 0, StatusEvent(0, 3), REPORTED);
  }

  /** The scan reads the running row; then the cancel, the runner's report and the stale timeout all write. */
  lemma Wrote()
    requires Reached(REPORTED, 0)
    ensures Reached(TIMED_OUT, 3)
  {
    hide Leads, Happens, Reached;
    Scans();
    Quiet(REPORTED, 0, ScanExpired({JOB}), SCANNED);
    Cancels();
    Step(SCANNED, 0, CancelRequest(JOB, false, 4), CANCELLED);
    Hears();
    Step(CANCELLED, 1, ServerReceive(3, 4), SUCCEEDED);
    TimesOut();
    Step(SUCCEEDED, 2, ExpireJob(JOB, false, 4), TIMED_OUT);
  }

  /** Three is reached: the bound of `AtMostThreeTerminalWrites` is exact, and a finished job's verdict changes,
      here from cancelled to success to timed out. */
  lemma AllThreeWritesHappen()
    ensures exists run :: Valid(run) && Count(run, TERMINAL, JOB) == 3
                          && After(run).rows == RowWith(Complete(TimedOut), Some(CONN))
  {
    Claimed();
    Ran();
    Wrote();
    var run :| Valid(run) && After(run) == TIMED_OUT && Count(run, TERMINAL, JOB) == 3;
  }

  // ---------- A stranded job ----------

  const VM_FAILED :=
    VMs.Vms(map[JOB := 0], map[0 := VMs.Task(JOB, SMALL, true)], 1, [VMs.Completion(0, JOB, VMs.ExitFailure)])
  const FAILED := ProcWith(KNOWN, 0, VM_FAILED, 0, Launched(JOB))
  const DROPPED := ProcWith(KNOWN, 0, VM_FAILED, 1, Launched(JOB))
  const STRANDED := ProcWith(RUNS, 0, VM_FAILED, 1, Idle)

  lemma FailsEarly()
    ensures Leads(Local(LAUNCHED), VmExits(0, 0, VMs.ExitFailure), Local(FAILED))
  {
    assert VMs.Exit(VM_RUNS, 0, VMs.ExitFailure).tasks == VM_FAILED.tasks;
    assert VMs.Exit(VM_RUNS, 0, VMs.ExitFailure) == VM_FAILED;
  }

  lemma Drops()
    ensures Leads(Local(FAILED), VmCompletion(0), Local(DROPPED))
  {
    assert HandleCompletion(FAILED) == DROPPED;
  }

  lemma Strands()
    ensures Leads(Local(DROPPED), SetRunning(0), Local(STRANDED)) && Stranded(STRANDED, JOB)
  {
    assert KNOWN.jobs[JOB := Running] == RUNS.jobs && KNOWN.log + [Event(Running)] == RUNS.log;
    assert MarkRunning(DROPPED) == STRANDED;
  }

  lemma Leaves()
    ensures Leads(Local(STRANDED), ShutdownSignal(0), Local(STRANDED.(shuttingDown := true)))
    ensures Stranded(STRANDED.(shuttingDown := true), JOB)
  {
  }

  lemma StuckForGood()
    requires Reached(Local(STRANDED.(shuttingDown := true)), 0)
    ensures exists run :: Leaving(run, 0) && !CanFinish(run, 0)
  {
    Leaves();
    hide Leads, Stranded;
    var run :| Valid(run) && After(run) == Local(STRANDED.(shuttingDown := true)) && Count(run, TERMINAL, JOB) == 0;
    assert 0 in After(run).procs && After(run).procs[0] == STRANDED.(shuttingDown := true);
    assert Leaving(run, 0);
    CanFinishIff(run, 0);
    assert Stranded(After(run).procs[0], JOB);
  }

  /** The VM fails before its job is marked running; from then on the runner can be told to stop, but cannot finish. */
  lemma StrandedJobBlocksShutdown()
    ensures exists run :: Leaving(run, 0) && !CanFinish(run, 0)
  {
    hide Leads, Happens, Reached, Stranded;
    Claimed();
    Registers();
    Quiet(WON, 0, RunnerReceive(0, 2, false, 3), Local(REGISTERED));
    Launches();
    Quiet(Local(REGISTERED), 0, Action.LaunchVm(0), Local(LAUNCHED));
    FailsEarly();
    Quiet(Local(LAUNCHED), 0, VmExits(0, 0, VMs.ExitFailure), Local(FAILED));
    Drops();
    Quiet(Local(FAILED), 0, VmCompletion(0), Local(DROPPED));
    Strands();
    Quiet(Local(DROPPED), 0, SetRunning(0), Local(STRANDED));
    Leaves();
    Quiet(Local(STRANDED), 0, ShutdownSignal(0), Local(STRANDED.(shuttingDown := true)));
    StuckForGood();
  }
}
