/** The backend, any number of runner processes and the messages between them, one atomic step at a time. */
module Lifecycle {
  import opened Protocol
  import opened JobTable
  import opened Runner
  import JM = JobManager
  import VMs = VmManager

  /** A message under way on the connection `conn`. */
  datatype Envelope =
    | ToRunner(conn: Uuid, smsg: ServerMessage)
    | ToServer(conn: Uuid, cmsg: ClientMessage)

  /** A broadcast still owed to one of the runners that were connected when it began. */
  datatype Notice = Notice(id: Uuid, vm: VM, conn: Uuid)

  /** A retry request between its read of the job and its transaction. */
  datatype RetryRequest = RetryRequest(id: Uuid, original: Job)

  /** `platforms` is the runners table, `registered` the connected runners, `owed` the connections about
      to look for a queued job, `expired` what the timeout checker has read and not yet dealt with, and
      `soup` the messages in flight: unordered, possibly lost, never duplicated. */
  datatype World = World(
    rows: Rows,
    platforms: map<Uuid, Platform>,
    registered: set<Uuid>,
    owed: set<Uuid>,
    notices: set<Notice>,
    expired: map<Uuid, Job>,
    retries: map<nat, RetryRequest>,
    procs: map<nat, Proc>,
    started: nat,
    soup: map<nat, Envelope>)

  const INIT := World(map[], map[], {}, {}, {}, map[], map[], map[], 0, map[])

  /** `m` names the message the step sends, if it sends one; `delivered` is whether `try_send` succeeds. */
  datatype Action =
    | CreateJob(id: Uuid, vm: VM, notify: bool)
    | SendNotice(notice: Notice, m: nat)
    | CheckQueue(conn: Uuid, locked: set<Uuid>, m: nat)
    | ServerReceive(msg: nat, m: nat)
    | ServerDisconnect(conn: Uuid)
    | CancelRequest(id: Uuid, delivered: bool, m: nat)
    | ScanExpired(ids: set<Uuid>)
    | ExpireJob(id: Uuid, delivered: bool, m: nat)
    | RetryRead(id: Uuid, k: nat)
    | RetryCommit(k: nat, newId: Uuid, notify: bool)
    | StartRunner(platform: Platform)
    | Connect(p: nat, conn: Uuid)
    | AskForJob(p: nat, m: nat)
    | RunnerReceive(p: nat, msg: nat, canAllocate: bool, m: nat)
    | LaunchVm(p: nat)
    | SetRunning(p: nat)
    | VmExits(p: nat, t: nat, status: VMs.VmExitStatus)
    | VmCleansUp(p: nat, t: nat)
    | VmCompletion(p: nat)
    | StatusEvent(p: nat, m: nat)
    | ShutdownSignal(p: nat)
    | Close(p: nat)
    | Crash(p: nat)
    | Lose(msg: nat)

  // ---------- Backend steps ----------

  function Broadcast(s: World, id: Uuid, job: Job, notify: bool): set<Notice> {
    if notify then s.notices + set c | c in s.registered :: Notice(id, ToVm(job), c) else s.notices
  }

  function Post(s: World, m: nat, e: Envelope): World {
    s.(soup := s.soup[m := e])
  }

  function Take(s: World, msg: nat): World {
    s.(soup := s.soup - {msg})
  }

  /** A step of the backend that at most offers a job. */
  predicate OnlyOffers(s: World, t: World) {
    && t.rows == s.rows && t.platforms == s.platforms && t.expired == s.expired
    && t.procs == s.procs && t.started == s.started
    && forall k | k in t.soup :: (k in s.soup && t.soup[k] == s.soup[k])
                              || (t.soup[k].ToRunner? && t.soup[k].smsg.NewJobAvailable?)
  }

  function DoSendNotice(s: World, n: Notice, m: nat): (t: World)
    ensures OnlyOffers(s, t)
  {
    var s1 := s.(notices := s.notices - {n});
    if n.conn in s.registered && n.conn in s.platforms && s.platforms[n.conn] == n.vm.platform
    then Post(s1, m, ToRunner(n.conn, NewJobAvailable(n.id, n.vm)))
    else s1
  }

  ghost function DoCheckQueue(s: World, conn: Uuid, locked: set<Uuid>, m: nat): (t: World)
    requires conn in s.platforms
    ensures OnlyOffers(s, t)
  {
    var s1 := s.(owed := s.owed - {conn});
    var found := FindQueued(s.rows, s.platforms[conn], locked);
    if found.Some? && found.value in s.rows
    then Post(s1, m, ToRunner(conn, NewJobAvailable(found.value, ToVm(s.rows[found.value]))))
    else s1
  }

  function DoServerReceive(s: World, conn: Uuid, message: ClientMessage, m: nat): (t: World)
    ensures t.platforms == s.platforms && t.expired == s.expired && t.procs == s.procs && t.started == s.started
    ensures forall k | k in t.soup && !(k in s.soup && t.soup[k] == s.soup[k]) ::
              message.ClaimJob? && Claimable(s.rows, message.id)
              && t.soup[k] == ToRunner(conn, JobClaimed(message.id, message.vm))
  {
    match message
    case ClaimJob(id, vm) =>
      var s1 := s.(rows := Claim(s.rows, id, conn));
      if Claimable(s.rows, id) then Post(s1, m, ToRunner(conn, JobClaimed(id, vm))) else s1
    case UpdateJobStatus(id, status) =>
      s.(rows := SetStatus(s.rows, id, status), owed := s.owed + {conn})
    case RequestJob =>
      s.(owed := s.owed + {conn})
  }

  /** The runner is told when one was assigned; a failed send is ignored. */
  function DoCancel(s: World, id: Uuid, delivered: bool, m: nat): (t: World)
    ensures t.rows == Cancel(s.rows, id)
    ensures t.platforms == s.platforms && t.expired == s.expired && t.procs == s.procs && t.started == s.started
    ensures forall k | k in t.soup && !(k in s.soup && t.soup[k] == s.soup[k]) ::
              t.soup[k].ToRunner? && t.soup[k].smsg == JobCancelled(id)
  {
    var s1 := s.(rows := Cancel(s.rows, id));
    if Cancellable(s.rows, id) && s.rows[id].runnerId.Some? && s.rows[id].runnerId.value in s.registered && delivered
    then Post(s1, m, ToRunner(s.rows[id].runnerId.value, JobCancelled(id)))
    else s1
  }

  /** Acts on the copy read by the scan: tell the runner, or failing that finish the row unconditionally. */
  function DoExpire(s: World, id: Uuid, delivered: bool, m: nat): (t: World)
    requires id in s.expired
    ensures t.rows == s.rows || t.rows == SetStatus(s.rows, id, Complete(TimedOut))
    ensures t.platforms == s.platforms && t.expired == s.expired - {id} && t.procs == s.procs && t.started == s.started
    ensures forall k | k in t.soup && !(k in s.soup && t.soup[k] == s.soup[k]) ::
              t.soup[k].ToRunner? && t.soup[k].smsg == JobTimedOut(id)
  {
    var s1 := s.(expired := s.expired - {id});
    match s.expired[id].runnerId
    case None => s1
    case Some(runner) =>
      if runner in s.registered && delivered
      then Post(s1, m, ToRunner(runner, JobTimedOut(id)))
      else s1.(rows := SetStatus(s.rows, id, Complete(TimedOut)))
  }

  function DoRetry(s: World, k: nat, newId: Uuid, notify: bool): (t: World)
    requires k in s.retries && s.retries[k].id in s.rows && newId !in s.rows
    ensures t.rows == Retry(s.rows, s.retries[k].id, s.retries[k].original, newId)
    ensures t.platforms == s.platforms && t.expired == s.expired && t.procs == s.procs
    ensures t.soup == s.soup && t.started == s.started
  {
    var r := s.retries[k];
    s.(rows := Retry(s.rows, r.id, r.original, newId),
       retries := s.retries - {k},
       notices := Broadcast(s, newId, RetryOf(r.original, r.id), notify))
  }

  // ---------- Runner steps ----------

  function SetProc(s: World, p: nat, proc: Proc): World {
    s.(procs := s.procs[p := proc])
  }

  function DoConnect(s: World, p: nat, conn: Uuid): (t: World)
    requires p in s.procs
    ensures t.procs == s.procs[p := s.procs[p].(conn := Some(conn))]
    ensures t.platforms == s.platforms[conn := s.procs[p].platform]
    ensures t.rows == s.rows && t.expired == s.expired && t.soup == s.soup && t.started == s.started
  {
    SetProc(s, p, s.procs[p].(conn := Some(conn)))
      .(platforms := s.platforms[conn := s.procs[p].platform],
        registered := s.registered + {conn},
        owed := s.owed + {conn})
  }

  function DoRunnerReceive(s: World, p: nat, conn: Uuid, message: ServerMessage, canAllocate: bool, m: nat): (t: World)
    requires p in s.procs
    ensures t.rows == s.rows && t.platforms == s.platforms && t.expired == s.expired && t.started == s.started
    ensures p in t.procs && t.procs == s.procs[p := t.procs[p]]
    ensures forall k | k in t.soup && !(k in s.soup && t.soup[k] == s.soup[k]) ::
              t.soup[k].ToServer? && t.soup[k].cmsg.ClaimJob?
  {
    match message
    case NewJobAvailable(id, vm) =>
      if canAllocate then Post(s, m, ToServer(conn, ClaimJob(id, vm))) else s
    case JobClaimed(id, vm) => SetProc(s, p, RegisterClaimed(s.procs[p], id, vm))
    case JobTimedOut(id) => SetProc(s, p, CompleteJob(s.procs[p], id, TimedOut))
    case JobCancelled(id) => SetProc(s, p, CompleteJob(s.procs[p], id, Cancelled))
  }

  function DoStatusEvent(s: World, p: nat, m: nat): (t: World)
    requires p in s.procs && s.procs[p].read < |s.procs[p].jm.log|
    ensures t.rows == s.rows && t.platforms == s.platforms && t.expired == s.expired && t.started == s.started
    ensures t.procs == s.procs[p := ReadEvent(s.procs[p])]
    ensures forall k | k in t.soup && !(k in s.soup && t.soup[k] == s.soup[k]) ::
              var report := Report(s.procs[p].jm.log[s.procs[p].read]);
              report.Some? && t.soup[k].ToServer? && t.soup[k].cmsg == report.value
  {
    var proc := s.procs[p];
    var report := Report(proc.jm.log[proc.read]);
    var s1 := SetProc(s, p, ReadEvent(proc));
    if report.Some? && proc.conn.Some? then Post(s1, m, ToServer(proc.conn.value, report.value)) else s1
  }

  // ---------- Which steps may happen, and what they do ----------

  predicate Enabled(s: World, a: Action) {
    match a
    case CreateJob(id, _, _) => id !in s.rows
    case SendNotice(n, m) => n in s.notices && m !in s.soup
    case CheckQueue(conn, _, m) => conn in s.owed && conn in s.registered && conn in s.platforms && m !in s.soup
    case ServerReceive(msg, m) =>
      && msg in s.soup && s.soup[msg].ToServer? && m !in s.soup
      && s.soup[msg].conn in s.registered && s.soup[msg].conn !in s.owed
    case ServerDisconnect(conn) => conn in s.registered
    case CancelRequest(_, _, m) => m !in s.soup
    case ScanExpired(ids) => s.expired == map[] && ids <= RunningIds(s.rows)
    case ExpireJob(id, _, m) => id in s.expired && m !in s.soup
    case RetryRead(id, k) => id in s.rows && Retryable(s.rows[id]) && k !in s.retries
    case RetryCommit(k, newId, _) =>
      k in s.retries && Retryable(s.retries[k].original) && s.retries[k].id in s.rows && newId !in s.rows
    case StartRunner(_) => true
    case Connect(p, conn) => p in s.procs && Listening(s.procs[p]) && conn !in s.platforms
    case AskForJob(p, m) => p in s.procs && Listening(s.procs[p]) && s.procs[p].conn.Some? && m !in s.soup
    case RunnerReceive(p, msg, _, m) =>
      && p in s.procs && Listening(s.procs[p]) && m !in s.soup
      && msg in s.soup && s.soup[msg].ToRunner? && s.procs[p].conn == Some(s.soup[msg].conn)
    case LaunchVm(p) => p in s.procs && s.procs[p].phase.Registered?
    case SetRunning(p) => p in s.procs && s.procs[p].phase.Launched?
    case VmExits(p, t, _) => p in s.procs && VMs.CanExit(s.procs[p].vms, t)
    case VmCleansUp(p, t) => p in s.procs && VMs.CanCleanUp(s.procs[p].vms, t)
    case VmCompletion(p) => p in s.procs && s.procs[p].handled < |s.procs[p].vms.completions|
    case StatusEvent(p, m) =>
      p in s.procs && AtSelect(s.procs[p]) && s.procs[p].read < |s.procs[p].jm.log| && m !in s.soup
    case ShutdownSignal(p) => p in s.procs && Listening(s.procs[p])
    case Close(p) => p in s.procs && MayClose(s.procs[p])
    case Crash(p) => p in s.procs
    case Lose(msg) => msg in s.soup
  }

  predicate OfBackend(a: Action) {
    a.CreateJob? || a.SendNotice? || a.CheckQueue? || a.ServerReceive? || a.ServerDisconnect?
    || a.CancelRequest? || a.ScanExpired? || a.ExpireJob? || a.RetryRead? || a.RetryCommit?
  }

  /** The steps of a process that exists before and after. */
  predicate OfProcess(a: Action) {
    a.Connect? || a.RunnerReceive? || a.LaunchVm? || a.SetRunning? || a.VmExits? || a.VmCleansUp?
    || a.VmCompletion? || a.StatusEvent? || a.ShutdownSignal? || a.Close?
  }

  ghost function Apply(s: World, a: Action): World
    requires Enabled(s, a)
  {
    match a
    case CreateJob(id, vm, notify) =>
      s.(rows := s.rows[id := JobForVm(vm)], notices := Broadcast(s, id, JobForVm(vm), notify))
    case SendNotice(n, m) => DoSendNotice(s, n, m)
    case CheckQueue(conn, locked, m) => DoCheckQueue(s, conn, locked, m)
    case ServerReceive(msg, m) => DoServerReceive(Take(s, msg), s.soup[msg].conn, s.soup[msg].cmsg, m)
    case ServerDisconnect(conn) => s.(registered := s.registered - {conn}, owed := s.owed - {conn})
    case CancelRequest(id, delivered, m) => DoCancel(s, id, delivered, m)
    case ScanExpired(ids) => s.(expired := map id | id in s.rows && id in ids :: s.rows[id])
    case ExpireJob(id, delivered, m) => DoExpire(s, id, delivered, m)
    case RetryRead(id, k) => s.(retries := s.retries[k := RetryRequest(id, s.rows[id])])
    case RetryCommit(k, newId, notify) => DoRetry(s, k, newId, notify)
    case StartRunner(platform) => SetProc(s, s.started, NewProc(platform)).(started := s.started + 1)
    case Connect(p, conn) => DoConnect(s, p, conn)
    case AskForJob(p, m) => Post(s, m, ToServer(s.procs[p].conn.value, RequestJob))
    case RunnerReceive(p, msg, canAllocate, m) =>
      DoRunnerReceive(Take(s, msg), p, s.soup[msg].conn, s.soup[msg].smsg, canAllocate, m)
    case LaunchVm(p) => SetProc(s, p, LaunchClaimed(s.procs[p]))
    case SetRunning(p) => SetProc(s, p, MarkRunning(s.procs[p]))
    case VmExits(p, t, status) => SetProc(s, p, s.procs[p].(vms := VMs.Exit(s.procs[p].vms, t, status)))
    case VmCleansUp(p, t) => SetProc(s, p, s.procs[p].(vms := VMs.CleanUp(s.procs[p].vms, t)))
    case VmCompletion(p) => SetProc(s, p, HandleCompletion(s.procs[p]))
    case StatusEvent(p, m) => DoStatusEvent(s, p, m)
    case ShutdownSignal(p) => SetProc(s, p, s.procs[p].(shuttingDown := true))
    case Close(p) => SetProc(s, p, s.procs[p].(closed := true))
    case Crash(p) => s.(procs := s.procs - {p})
    case Lose(msg) => Take(s, msg)
  }

  // ---------- Runs ----------

  ghost predicate Valid(run: seq<Action>)
    decreases |run|, 0
  {
    run == [] || (Valid(run[..|run| - 1]) && Enabled(After(run[..|run| - 1]), run[|run| - 1]))
  }

  ghost function After(run: seq<Action>): World
    requires Valid(run)
    decreases |run|, 1
  {
    if run == [] then INIT else Apply(After(run[..|run| - 1]), run[|run| - 1])
  }

  lemma {:induction false} PrefixValid(run: seq<Action>, i: nat)
    requires Valid(run) && i <= |run|
    ensures Valid(run[..i])
    decreases |run|
  {
    if i < |run| {
      var front := run[..|run| - 1];
      assert front[..i] == run[..i];
      PrefixValid(front, i);
    } else {
      assert run[..i] == run;
    }
  }
}
