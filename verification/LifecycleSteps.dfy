/** Every step keeps the invariant. */
module LifecycleSteps {
  import opened Protocol
  import opened JobTable
  import opened Runner
  import opened Lifecycle
  import opened LifecycleInvariant
  import JM = JobManager
  import VMs = VmManager

  // ---------- Inside one process ----------

  lemma CompleteKeepsLocal(p: Proc, id: Uuid, status: CompletionStatus)
    requires LocalOk(p)
    ensures LocalOk(CompleteJob(p, id, status)) && Calm(p, CompleteJob(p, id, status))
    ensures JM.ActiveIds(CompleteJob(p, id, status).jm.jobs) <= JM.ActiveIds(p.jm.jobs)
  {
    JM.UpdateKeepsInv(p.jm, id, Complete(status));
    CalmUpdate(p, CompleteJob(p, id, status), id, Complete(status));
  }

  lemma MarkRunningKeepsLocal(p: Proc)
    requires LocalOk(p) && p.phase.Launched?
    ensures LocalOk(MarkRunning(p)) && Calm(p, MarkRunning(p))
  {
    JM.UpdateKeepsInv(p.jm, p.phase.id, Running);
    CalmUpdate(p, MarkRunning(p), p.phase.id, Running);
  }

  lemma CompletionKeepsLocal(p: Proc)
    requires LocalOk(p) && p.handled < |p.vms.completions|
    ensures LocalOk(HandleCompletion(p)) && Calm(p, HandleCompletion(p))
    ensures JM.ActiveIds(HandleCompletion(p).jm.jobs) <= JM.ActiveIds(p.jm.jobs)
  {
    var c := p.vms.completions[p.handled];
    CompleteKeepsLocal(p, c.jobId, CompletionOf(c.status));
    CalmUpdate(p, HandleCompletion(p), c.jobId, Complete(CompletionOf(c.status)));
  }

  lemma LaunchKeepsLocal(p: Proc)
    requires LocalOk(p) && p.phase.Registered? && p.phase.id in p.jm.jobs && p.phase.id !in p.vms.channels
    ensures LocalOk(LaunchClaimed(p)) && Calm(p, LaunchClaimed(p))
  {
    VMs.ChannelsKept(p.vms);
    VMs.LaunchKeepsCompletions(p.vms, p.phase.id, p.phase.vm);
    CalmSame(p, LaunchClaimed(p));
  }

  lemma ExitKeepsLocal(p: Proc, t: nat, status: VMs.VmExitStatus)
    requires LocalOk(p) && VMs.CanExit(p.vms, t)
    ensures LocalOk(p.(vms := VMs.Exit(p.vms, t, status))) && Calm(p, p.(vms := VMs.Exit(p.vms, t, status)))
  {
    VMs.ChannelsKept(p.vms);
    VMs.ExitKeepsCompletions(p.vms, t, status);
    CalmSame(p, p.(vms := VMs.Exit(p.vms, t, status)));
  }

  lemma CleanUpKeepsLocal(p: Proc, t: nat)
    requires LocalOk(p) && VMs.CanCleanUp(p.vms, t)
    ensures LocalOk(p.(vms := VMs.CleanUp(p.vms, t))) && Calm(p, p.(vms := VMs.CleanUp(p.vms, t)))
  {
    VMs.ChannelsKept(p.vms);
    VMs.CleanUpKeepsCompletions(p.vms, t);
    CalmSame(p, p.(vms := VMs.CleanUp(p.vms, t)));
  }

  // ---------- Reading the invariant ----------

  lemma Parts(s: World)
    requires Inv(s)
    ensures BackendOk(s) && SoupOk(s) && ProcsOk(s) && TokensOk(s.procs, s.soup)
    ensures TableOk(s.rows, s.platforms) && Grows(s, s)
  {
  }

  lemma KnownProc(s: World, p: nat)
    requires Inv(s) && p in s.procs
    ensures p < s.started && ProcOk(s.rows, s.platforms, s.procs[p]) && LocalOk(s.procs[p])
  {
    hide BackendOk, SoupOk, TokensOk, LocalOk;
  }

  lemma KnownEnvelope(s: World, m: nat)
    requires Inv(s) && m in s.soup
    ensures EnvelopeOk(s.rows, s.platforms, s.soup[m])
  {
    hide BackendOk, ProcsOk, TokensOk, EnvelopeOk;
  }

  lemma SameBackend(s: World, t: World)
    requires BackendOk(s)
    requires t.rows == s.rows && t.platforms == s.platforms && t.registered == s.registered
    requires t.notices == s.notices && t.expired == s.expired && t.retries == s.retries
    ensures BackendOk(t)
  {
    hide TableOk, ExpiredOk, RetryOk;
  }

  // ---------- Building blocks that move no token ----------

  /** Only the tables and the pending work of the backend change. */
  lemma BackendStep(s: World, t: World)
    requires Inv(s) && Grows(s, t) && BackendOk(t)
    requires t.soup == s.soup && t.procs == s.procs && t.started == s.started
    ensures Inv(t)
  {
    hide Inv, BackendOk, Grows, EnvelopeOk, ProcOk;
    QuietStep(s, t);
  }

  lemma PostStep(s: World, m: nat, e: Envelope)
    requires Inv(s) && m !in s.soup && Plain(e) && EnvelopeOk(s.rows, s.platforms, e)
    ensures Inv(Post(s, m, e))
  {
    hide Inv, BackendOk, TableOk, EnvelopeOk, ProcOk, SoupOk, ProcsOk, TokensOk;
    Parts(s);
    SameBackend(s, Post(s, m, e));
    QuietStep(s, Post(s, m, e));
  }

  lemma TakeStep(s: World, msg: nat)
    requires Inv(s) && msg in s.soup
    ensures Inv(Take(s, msg))
  {
    hide Inv, BackendOk, TableOk, EnvelopeOk, ProcOk, SoupOk, ProcsOk, TokensOk;
    Parts(s);
    SameBackend(s, Take(s, msg));
    QuietStep(s, Take(s, msg));
  }

  lemma ProcStep(s: World, p: nat, q: Proc)
    requires Inv(s) && p in s.procs
    requires Calm(s.procs[p], q) && ProcOk(s.rows, s.platforms, q)
    ensures Inv(SetProc(s, p, q))
  {
    hide Inv, BackendOk, TableOk, EnvelopeOk, ProcOk, LocalOk, SoupOk, ProcsOk, TokensOk, Calm;
    Parts(s);
    KnownProc(s, p);
    SameBackend(s, SetProc(s, p, q));
    QuietStep(s, SetProc(s, p, q));
  }

  lemma CrashStep(s: World, p: nat)
    requires Inv(s) && p in s.procs
    ensures Inv(s.(procs := s.procs - {p}))
  {
    hide Inv, BackendOk, TableOk, EnvelopeOk, ProcOk, SoupOk, ProcsOk, TokensOk;
    Parts(s);
    SameBackend(s, s.(procs := s.procs - {p}));
    QuietStep(s, s.(procs := s.procs - {p}));
  }

  // ---------- Backend steps ----------

  lemma RowsStep(s: World, rows: Rows)
    requires Inv(s) && Evolves(s.rows, rows) && TableOk(rows, s.platforms)
    ensures Inv(s.(rows := rows))
  {
    Parts(s);
    var t := s.(rows := rows);
    hide Inv, TableOk, ExpiredOk, RetryOk, SoupOk, ProcsOk, TokensOk;
    BackendStaysOk(s, t);
    BackendStep(s, t);
  }

  lemma CompleteRow(s: World, id: Uuid, c: CompletionStatus)
    requires Inv(s)
    ensures Inv(s.(rows := SetStatus(s.rows, id, Complete(c))))
  {
    Parts(s);
    hide Inv, BackendOk, TableOk, SoupOk, ProcsOk, TokensOk, Evolves, Grows;
    SetCompleteEvolves(s.rows, s.platforms, id, c);
    RowsStep(s, SetStatus(s.rows, id, Complete(c)));
  }

  lemma CreateJobStep(s: World, id: Uuid, vm: VM, notify: bool)
    requires Inv(s) && id !in s.rows
    ensures Inv(s.(rows := s.rows[id := JobForVm(vm)], notices := Broadcast(s, id, JobForVm(vm), notify)))
  {
    Parts(s);
    var t := s.(rows := s.rows[id := JobForVm(vm)], notices := Broadcast(s, id, JobForVm(vm), notify));
    hide Inv, TableOk, ExpiredOk, RetryOk, SoupOk, ProcsOk, TokensOk, JobForVm;
    InsertEvolves(s.rows, s.platforms, id, vm);
    BackendStaysOk(s, t);
    BackendStep(s, t);
  }

  lemma RetryCommitStep(s: World, k: nat, newId: Uuid, notify: bool)
    requires Inv(s) && k in s.retries && s.retries[k].id in s.rows && newId !in s.rows
    ensures Inv(DoRetry(s, k, newId, notify))
  {
    Parts(s);
    var t := DoRetry(s, k, newId, notify);
    assert RetryOk(s.rows, s.retries[k]);
    hide Inv, TableOk, ExpiredOk, RetryOk, SoupOk, ProcsOk, TokensOk;
    RetryEvolves(s.rows, s.platforms, s.retries[k], newId);
    BackendStaysOk(s, t);
    BackendStep(s, t);
  }

  lemma PendingWorkStep(s: World, t: World)
    requires Inv(s) && t == s.(registered := t.registered, owed := t.owed, notices := t.notices,
                               expired := t.expired, retries := t.retries)
    requires t.registered <= s.registered && t.notices <= s.notices
    requires forall id | id in t.expired :: (id in s.expired && t.expired[id] == s.expired[id])
                                         || ExpiredOk(s.rows, id, t.expired[id])
    requires forall k | k in t.retries ::
               (k in s.retries && t.retries[k] == s.retries[k]) || RetryOk(s.rows, t.retries[k])
    ensures Inv(t)
  {
    Parts(s);
    assert s.registered <= s.platforms.Keys;
    hide Inv, BackendOk, TableOk, ExpiredOk, RetryOk, SoupOk, ProcsOk, TokensOk;
    BackendStaysOk(s, t);
    BackendStep(s, t);
  }

  lemma SendNoticeStep(s: World, n: Notice, m: nat)
    requires Inv(s) && n in s.notices && m !in s.soup
    ensures Inv(DoSendNotice(s, n, m))
  {
    var s1 := s.(notices := s.notices - {n});
    assert n.id in s.rows && n.vm == ToVm(s.rows[n.id]);
    hide Inv, ToVm;
    PendingWorkStep(s, s1);
    if n.conn in s.registered && n.conn in s.platforms && s.platforms[n.conn] == n.vm.platform {
      PostStep(s1, m, ToRunner(n.conn, NewJobAvailable(n.id, n.vm)));
    }
  }

  lemma CheckQueueStep(s: World, conn: Uuid, locked: set<Uuid>, m: nat)
    requires Inv(s) && conn in s.platforms && m !in s.soup
    ensures Inv(DoCheckQueue(s, conn, locked, m))
  {
    hide Inv;
    var s1 := s.(owed := s.owed - {conn});
    PendingWorkStep(s, s1);
    var found := FindQueued(s.rows, s.platforms[conn], locked);
    if found.Some? && found.value in s.rows {
      PostStep(s1, m, ToRunner(conn, NewJobAvailable(found.value, ToVm(s.rows[found.value]))));
    }
  }

  lemma CancelStep(s: World, id: Uuid, delivered: bool, m: nat)
    requires Inv(s) && m !in s.soup
    ensures Inv(DoCancel(s, id, delivered, m))
  {
    hide Inv;
    if Cancellable(s.rows, id) {
      CompleteRow(s, id, Cancelled);
      if s.rows[id].runnerId.Some? && s.rows[id].runnerId.value in s.registered && delivered {
        PostStep(s.(rows := Cancel(s.rows, id)), m, ToRunner(s.rows[id].runnerId.value, JobCancelled(id)));
      }
    }
  }

  lemma ScanStep(s: World, ids: set<Uuid>)
    requires Inv(s) && s.expired == map[] && ids <= RunningIds(s.rows)
    ensures Inv(s.(expired := map id | id in s.rows && id in ids :: s.rows[id]))
  {
    var expired := map id | id in s.rows && id in ids :: s.rows[id];
    forall id | id in expired ensures ExpiredOk(s.rows, id, expired[id]) {
      assert AssignmentOk(s.rows[id]);
    }
    hide Inv, ExpiredOk;
    PendingWorkStep(s, s.(expired := expired));
  }

  lemma ExpireStep(s: World, id: Uuid, delivered: bool, m: nat)
    requires Inv(s) && id in s.expired && m !in s.soup
    ensures Inv(DoExpire(s, id, delivered, m))
  {
    hide Inv;
    var s1 := s.(expired := s.expired - {id});
    PendingWorkStep(s, s1);
    if s.expired[id].runnerId.Some? {
      var runner := s.expired[id].runnerId.value;
      if runner in s.registered && delivered {
        PostStep(s1, m, ToRunner(runner, JobTimedOut(id)));
      } else {
        CompleteRow(s1, id, TimedOut);
      }
    }
  }

  // ---------- Runner steps that move no token ----------

  lemma NewProcOk(rows: Rows, platforms: map<Uuid, Platform>, platform: Platform)
    ensures ProcOk(rows, platforms, NewProc(platform)) && Newcomer(NewProc(platform))
  {
    var born := NewProc(platform);
    assert JM.Inv(born.jm) by {
      forall id ensures JM.Consistent(born.jm, id) && JM.Legal(JM.History(born.jm.log, id)) {
      }
    }
  }

  lemma AddProcStep(s: World, t: World, q: Proc)
    requires Inv(s) && Newcomer(q) && ProcOk(s.rows, s.platforms, q)
    requires t == s.(procs := s.procs[s.started := q], started := s.started + 1)
    ensures Inv(t)
  {
    hide Inv, BackendOk, TableOk, EnvelopeOk, ProcOk, LocalOk, SoupOk, ProcsOk, TokensOk, Calm, Newcomer;
    Parts(s);
    SameBackend(s, t);
    assert Grows(s, t);
    hide Grows;
    assert SoupQuiet(s, t);
    hide SoupQuiet;
    QuietStep(s, t);
  }

  lemma StartRunnerStep(s: World, platform: Platform)
    requires Inv(s)
    ensures Inv(SetProc(s, s.started, NewProc(platform)).(started := s.started + 1))
  {
    hide Inv, ProcOk, NewProc, Newcomer;
    NewProcOk(s.rows, s.platforms, platform);
    AddProcStep(s, SetProc(s, s.started, NewProc(platform)).(started := s.started + 1), NewProc(platform));
  }

  /** What ties a process to the tables does not depend on how its jobs progress. */
  lemma SharedOk(rows: Rows, platforms: map<Uuid, Platform>, p: Proc, q: Proc)
    requires ProcOk(rows, platforms, p) && LocalOk(q)
    requires q.platform == p.platform
    requires q.conn == p.conn || (q.conn.Some? && q.conn.value in platforms && platforms[q.conn.value] == q.platform)
    requires q.jm.jobs.Keys == p.jm.jobs.Keys && q.vms.channels.Keys <= p.vms.channels.Keys
    requires q.phase == p.phase || !q.phase.Registered?
    requires forall t | t in q.vms.tasks ::
               t in p.vms.tasks && q.vms.tasks[t].jobId == p.vms.tasks[t].jobId
               && q.vms.tasks[t].vm == p.vms.tasks[t].vm
    ensures ProcOk(rows, platforms, q)
  {
    hide LocalOk, Taken;
    forall t | t in q.vms.tasks ensures VmOk(rows, q, q.vms.tasks[t].jobId, q.vms.tasks[t].vm) {
      assert VmOk(rows, p, p.vms.tasks[t].jobId, p.vms.tasks[t].vm);
    }
    forall id | id in q.jm.jobs ensures Taken(rows, id) {
      assert id in p.jm.jobs.Keys;
    }
  }

  /** The database gets a runner row for the new connection. */
  lemma NewConnectionStep(s: World, u: World, conn: Uuid, platform: Platform)
    requires Inv(s) && conn !in s.platforms
    requires u == s.(platforms := s.platforms[conn := platform], registered := s.registered + {conn},
                      owed := s.owed + {conn})
    ensures Inv(u)
  {
    Parts(s);
    assert s.registered <= s.platforms.Keys;
    hide Inv, BackendOk, TableOk, ExpiredOk, RetryOk, SoupOk, ProcsOk, TokensOk, ProcOk, Calm;
    PlatformsGrow(s, u.platforms);
    BackendStaysOk(s, u);
    BackendStep(s, u);
  }

  lemma NewConnectionProc(s: World, p: nat, conn: Uuid)
    requires Inv(s) && p in s.procs && conn in s.platforms && s.platforms[conn] == s.procs[p].platform
    ensures Inv(SetProc(s, p, s.procs[p].(conn := Some(conn))))
  {
    var q := s.procs[p].(conn := Some(conn));
    KnownProc(s, p);
    hide Inv, ProcOk, Calm, JM.Inv, VMs.ChannelsMatchTasks, VMs.OneCompletionPerLaunch;
    SharedOk(s.rows, s.platforms, s.procs[p], q);
    CalmSame(s.procs[p], q);
    ProcStep(s, p, q);
  }

  lemma ConnectStep(s: World, p: nat, conn: Uuid)
    requires Inv(s) && p in s.procs && conn !in s.platforms
    ensures Inv(DoConnect(s, p, conn))
  {
    hide Inv;
    var u := s.(platforms := s.platforms[conn := s.procs[p].platform],
                registered := s.registered + {conn}, owed := s.owed + {conn});
    NewConnectionStep(s, u, conn, s.procs[p].platform);
    NewConnectionProc(u, p, conn);
    assert SetProc(u, p, u.procs[p].(conn := Some(conn))) == DoConnect(s, p, conn);
  }

  lemma LaunchShared(rows: Rows, platforms: map<Uuid, Platform>, p: Proc)
    requires ProcOk(rows, platforms, p) && p.phase.Registered? && LocalOk(LaunchClaimed(p))
    ensures ProcOk(rows, platforms, LaunchClaimed(p))
  {
    hide LocalOk;
    var q := LaunchClaimed(p);
    forall t | t in q.vms.tasks ensures VmOk(rows, q, q.vms.tasks[t].jobId, q.vms.tasks[t].vm) {
      assert t != p.vms.launches ==> VmOk(rows, p, p.vms.tasks[t].jobId, p.vms.tasks[t].vm);
    }
    forall id | id in q.jm.jobs ensures Taken(rows, id) {
      assert id in p.jm.jobs;
    }
  }

  lemma LaunchStep(s: World, p: nat)
    requires Inv(s) && p in s.procs && s.procs[p].phase.Registered?
    ensures Inv(SetProc(s, p, LaunchClaimed(s.procs[p])))
  {
    KnownProc(s, p);
    hide Inv, JM.Inv, VMs.ChannelsMatchTasks, VMs.OneCompletionPerLaunch, Calm;
    LaunchKeepsLocal(s.procs[p]);
    LaunchShared(s.rows, s.platforms, s.procs[p]);
    hide ProcOk, LocalOk;
    ProcStep(s, p, LaunchClaimed(s.procs[p]));
  }

  /** A calm change that only moves the process's own jobs and VMs along. */
  lemma ProgressStep(s: World, p: nat, q: Proc)
    requires Inv(s) && p in s.procs && Calm(s.procs[p], q) && LocalOk(q)
    requires q.platform == s.procs[p].platform && q.conn == s.procs[p].conn
    requires q.jm.jobs.Keys == s.procs[p].jm.jobs.Keys && q.vms.channels.Keys <= s.procs[p].vms.channels.Keys
    requires q.phase == s.procs[p].phase || !q.phase.Registered?
    requires forall t | t in q.vms.tasks ::
               && t in s.procs[p].vms.tasks && q.vms.tasks[t].jobId == s.procs[p].vms.tasks[t].jobId
               && q.vms.tasks[t].vm == s.procs[p].vms.tasks[t].vm
    ensures Inv(SetProc(s, p, q))
  {
    KnownProc(s, p);
    hide Inv, LocalOk, ProcOk, Calm;
    SharedOk(s.rows, s.platforms, s.procs[p], q);
    ProcStep(s, p, q);
  }

  lemma SetRunningStep(s: World, p: nat)
    requires Inv(s) && p in s.procs && s.procs[p].phase.Launched?
    ensures Inv(SetProc(s, p, MarkRunning(s.procs[p])))
  {
    KnownProc(s, p);
    hide Inv, LocalOk, ProcOk, Calm;
    MarkRunningKeepsLocal(s.procs[p]);
    ProgressStep(s, p, MarkRunning(s.procs[p]));
  }

  lemma CompleteStep(s: World, p: nat, id: Uuid, status: CompletionStatus)
    requires Inv(s) && p in s.procs
    ensures Inv(SetProc(s, p, CompleteJob(s.procs[p], id, status)))
  {
    KnownProc(s, p);
    hide Inv, LocalOk, ProcOk, Calm;
    CompleteKeepsLocal(s.procs[p], id, status);
    ProgressStep(s, p, CompleteJob(s.procs[p], id, status));
  }

  lemma VmCompletionStep(s: World, p: nat)
    requires Inv(s) && p in s.procs && s.procs[p].handled < |s.procs[p].vms.completions|
    ensures Inv(SetProc(s, p, HandleCompletion(s.procs[p])))
  {
    KnownProc(s, p);
    hide Inv, LocalOk, ProcOk, Calm;
    CompletionKeepsLocal(s.procs[p]);
    ProgressStep(s, p, HandleCompletion(s.procs[p]));
  }

  lemma VmExitsStep(s: World, p: nat, t: nat, status: VMs.VmExitStatus)
    requires Inv(s) && p in s.procs && VMs.CanExit(s.procs[p].vms, t)
    ensures Inv(SetProc(s, p, s.procs[p].(vms := VMs.Exit(s.procs[p].vms, t, status))))
  {
    KnownProc(s, p);
    hide Inv, LocalOk, ProcOk, Calm;
    ExitKeepsLocal(s.procs[p], t, status);
    ProgressStep(s, p, s.procs[p].(vms := VMs.Exit(s.procs[p].vms, t, status)));
  }

  lemma VmCleansUpStep(s: World, p: nat, t: nat)
    requires Inv(s) && p in s.procs && VMs.CanCleanUp(s.procs[p].vms, t)
    ensures Inv(SetProc(s, p, s.procs[p].(vms := VMs.CleanUp(s.procs[p].vms, t))))
  {
    KnownProc(s, p);
    hide Inv, LocalOk, ProcOk, Calm;
    CleanUpKeepsLocal(s.procs[p], t);
    ProgressStep(s, p, s.procs[p].(vms := VMs.CleanUp(s.procs[p].vms, t)));
  }

  lemma EndStep(s: World, p: nat, q: Proc)
    requires Inv(s) && p in s.procs
    requires (Listening(s.procs[p]) && q == s.procs[p].(shuttingDown := true))
          || (MayClose(s.procs[p]) && q == s.procs[p].(closed := true))
    ensures Inv(SetProc(s, p, q))
  {
    KnownProc(s, p);
    hide Inv, ProcOk, JM.Inv, VMs.ChannelsMatchTasks, VMs.OneCompletionPerLaunch;
    CalmSame(s.procs[p], q);
    ProgressStep(s, p, q);
  }

  // ---------- Steps that move a token ----------

  /** While a job is queued nobody holds its token. */
  lemma QueuedHasNoToken(s: World, id: Uuid)
    requires Inv(s) && Claimable(s.rows, id)
    ensures NoTicket(s.soup, id) && NoReport(s.soup, id) && NobodyKnows(s.procs, id)
  {
    hide BackendOk, TokensOk, LocalOk;
    forall k | k in s.soup ensures !IsTicket(s.soup[k], id) && !IsReport(s.soup[k], id) {
      assert EnvelopeOk(s.rows, s.platforms, s.soup[k]);
    }
    forall p | p in s.procs ensures !Knows(s.procs[p], id) {
      assert id in s.procs[p].jm.jobs ==> Taken(s.rows, id);
    }
  }

  /** Minting: a ticket is posted for a job nobody holds a token of. */
  lemma MintTicket(s: World, m: nat, e: Envelope, id: Uuid)
    requires TokensOk(s.procs, s.soup) && m !in s.soup && IsTicket(e, id)
    requires NoTicket(s.soup, id) && NoReport(s.soup, id) && NobodyKnows(s.procs, id)
    ensures TokensOk(s.procs, s.soup[m := e])
  {
    var soup := s.soup[m := e];
    forall k, i | k in soup && IsTicket(soup[k], i) ensures NoReport(soup, i) && NobodyKnows(s.procs, i) {
      assert k == m || IsTicket(s.soup[k], i);
      assert NoReport(s.soup, i);
    }
    forall k, i | k in soup && IsReport(soup[k], i) ensures AllQuiet(s.procs, i) {
      assert IsReport(s.soup[k], i);
    }
  }

  lemma InvFromParts(s: World)
    requires BackendOk(s) && SoupOk(s) && ProcsOk(s) && TokensOk(s.procs, s.soup)
    ensures Inv(s)
  {
    hide BackendOk, SoupOk, ProcsOk, TokensOk;
  }

  /** A message that carries a fresh token is posted in a world whose rows have already been updated. */
  lemma PostToken(s: World, t: World, m: nat, e: Envelope)
    requires Inv(s) && t == Post(s, m, e) && EnvelopeOk(s.rows, s.platforms, e) && TokensOk(t.procs, t.soup)
    ensures Inv(t)
  {
    Parts(s);
    hide Inv, BackendOk, TableOk, TokensOk, EnvelopeOk, ProcOk;
    SameBackend(s, t);
    SoupStaysOk(s, t);
    hide SoupOk;
    ProcsStayOk(s, t);
    InvFromParts(t);
  }

  /** The one successful claim of a queued job mints its token. */
  lemma ClaimStep(s: World, conn: Uuid, id: Uuid, vm: VM, m: nat)
    requires Inv(s) && OfferOk(s.rows, s.platforms, conn, id, vm) && m !in s.soup
    ensures Inv(DoServerReceive(s, conn, ClaimJob(id, vm), m))
  {
    Parts(s);
    hide Inv, TableOk, Evolves, BackendOk, SoupOk, ProcsOk, TokensOk;
    ClaimEvolves(s.rows, s.platforms, id, conn);
    var s1 := s.(rows := Claim(s.rows, id, conn));
    RowsStep(s, s1.rows);
    if Claimable(s.rows, id) {
      var e := ToRunner(conn, JobClaimed(id, vm));
      QueuedHasNoToken(s, id);
      assert EnvelopeOk(s1.rows, s1.platforms, e);
      hide OfferOk, Taken, EnvelopeOk, NoTicket, NoReport, NobodyKnows;
      MintTicket(s, m, e, id);
      PostToken(s1, Post(s1, m, e), m, e);
    }
  }

  lemma ServerReceiveStep(s: World, msg: nat, m: nat)
    requires Inv(s) && msg in s.soup && s.soup[msg].ToServer? && m !in s.soup
    ensures Inv(DoServerReceive(Take(s, msg), s.soup[msg].conn, s.soup[msg].cmsg, m))
  {
    hide Inv;
    var e := s.soup[msg];
    var u := Take(s, msg);
    TakeStep(s, msg);
    KnownEnvelope(s, msg);
    match e.cmsg
    case ClaimJob(id, vm) => ClaimStep(u, e.conn, id, vm, m);
    case UpdateJobStatus(id, status) =>
      CompleteRow(u, id, status.completion);
      var v := u.(rows := SetStatus(u.rows, id, status));
      PendingWorkStep(v, v.(owed := u.owed + {e.conn}));
    case RequestJob => PendingWorkStep(u, u.(owed := u.owed + {e.conn}));
  }

  lemma RegisterOtherQuiet(p: Proc, q: Proc, id: Uuid, other: Uuid)
    requires q.jm == JM.Register(p.jm, id) && q.read == p.read && other != id && Quiet(p, other)
    ensures Quiet(q, other)
  {
    assert forall k | 0 <= k < |p.jm.log| :: q.jm.log[k] == p.jm.log[k];
  }

  /** Spending: the ticket is gone and one process now knows the job. */
  lemma SpendTicket(s: World, msg: nat, p: nat, q: Proc, id: Uuid)
    requires TokensOk(s.procs, s.soup) && msg in s.soup && IsTicket(s.soup[msg], id) && p in s.procs
    requires q.jm == JM.Register(s.procs[p].jm, id) && q.read == s.procs[p].read
    ensures TokensOk(s.procs[p := q], s.soup - {msg})
  {
    var procs, soup := s.procs[p := q], s.soup - {msg};
    assert NoReport(s.soup, id) && NobodyKnows(s.procs, id);
    forall k, i | k in soup && IsTicket(soup[k], i) ensures NoReport(soup, i) && NobodyKnows(procs, i) {
      assert IsTicket(s.soup[k], i) && k != msg;
      assert NobodyKnows(s.procs, i) && NoReport(s.soup, i);
      assert i != id;
      assert !Knows(s.procs[p], i);
    }
    forall k, i | k in soup && IsReport(soup[k], i) ensures AllQuiet(procs, i) {
      assert IsReport(s.soup[k], i) && AllQuiet(s.procs, i);
      assert i != id;
      RegisterOtherQuiet(s.procs[p], q, id, i);
    }
    forall p1, p2, i | p1 in procs && p2 in procs && Knows(procs[p1], i) && Knows(procs[p2], i) ensures p1 == p2 {
      if i == id {
        assert !Knows(s.procs[p1], i) && !Knows(s.procs[p2], i);
      } else {
        assert Knows(s.procs[p1], i) && Knows(s.procs[p2], i);
      }
    }
  }

  lemma RegisterLocal(p: Proc, id: Uuid, vm: VM)
    requires LocalOk(p) && !Knows(p, id) && Listening(p)
    ensures LocalOk(RegisterClaimed(p, id, vm))
  {
    JM.RegisterKeepsInv(p.jm, id);
  }

  /** Registration turns the claim's answer into the process's entry. */
  lemma RegisterStep(s: World, p: nat, msg: nat, id: Uuid, vm: VM)
    requires Inv(s) && p in s.procs && Listening(s.procs[p])
    requires msg in s.soup && s.soup[msg].ToRunner? && s.soup[msg].smsg == JobClaimed(id, vm)
    requires s.procs[p].conn == Some(s.soup[msg].conn)
    ensures Inv(SetProc(Take(s, msg), p, RegisterClaimed(s.procs[p], id, vm)))
  {
    hide Inv, BackendOk, TableOk, SoupOk, ProcsOk, JM.Inv, VMs.ChannelsMatchTasks, VMs.OneCompletionPerLaunch;
    var q := RegisterClaimed(s.procs[p], id, vm);
    var u := Take(s, msg);
    var t := SetProc(u, p, q);
    Parts(s);
    KnownProc(s, p);
    KnownEnvelope(s, msg);
    TakeStep(s, msg);
    hide Inv, BackendOk, TableOk, SoupOk, ProcsOk;
    assert IsTicket(s.soup[msg], id);
    assert NobodyKnows(s.procs, id);
    assert !Knows(s.procs[p], id);
    hide TokensOk;
    SpendTicket(s, msg, p, q, id);
    RegisterLocal(s.procs[p], id, vm);
    assert ProcOk(t.rows, t.platforms, q) by {
      hide JM.Inv, VMs.ChannelsMatchTasks, VMs.OneCompletionPerLaunch;
    }
    hide ProcOk, LocalOk, EnvelopeOk;
    Parts(u);
    SameBackend(u, t);
    SoupStaysOk(u, t);
    ProcsStayOk(u, t);
    InvFromParts(t);
  }

  lemma RunnerReceiveStep(s: World, p: nat, msg: nat, canAllocate: bool, m: nat)
    requires Inv(s) && p in s.procs && Listening(s.procs[p]) && m !in s.soup
    requires msg in s.soup && s.soup[msg].ToRunner? && s.procs[p].conn == Some(s.soup[msg].conn)
    ensures Inv(DoRunnerReceive(Take(s, msg), p, s.soup[msg].conn, s.soup[msg].smsg, canAllocate, m))
  {
    hide Inv;
    var e := s.soup[msg];
    KnownEnvelope(s, msg);
    TakeStep(s, msg);
    match e.smsg
    case NewJobAvailable(id, vm) =>
      if canAllocate {
        PostStep(Take(s, msg), m, ToServer(e.conn, ClaimJob(id, vm)));
      }
    case JobClaimed(id, vm) => RegisterStep(s, p, msg, id, vm);
    case JobTimedOut(id) => CompleteStep(Take(s, msg), p, id, TimedOut);
    case JobCancelled(id) => CompleteStep(Take(s, msg), p, id, Cancelled);
  }

  /** A process that never heard of a job, or read its last event about it, is quiet about it. */
  lemma StrangerIsQuiet(p: Proc, id: Uuid)
    requires JM.Inv(p.jm) && !Knows(p, id)
    ensures Quiet(p, id)
  {
    hide JM.Inv;
    forall i | p.read <= i < |p.jm.log| ensures !JM.Terminal(p.jm.log[i], id) {
      if JM.Terminal(p.jm.log[i], id) {
        JM.TerminalOnce(p.jm, i, i, id);
      }
    }
  }

  lemma ReaderIsQuiet(p: Proc, id: Uuid)
    requires JM.Inv(p.jm) && p.read < |p.jm.log| && JM.Terminal(p.jm.log[p.read], id)
    ensures Knows(p, id) && !Quiet(p, id) && Quiet(ReadEvent(p), id)
  {
    hide JM.Inv;
    JM.TerminalOnce(p.jm, p.read, p.read, id);
    forall i | p.read < i < |p.jm.log| ensures !JM.Terminal(p.jm.log[i], id) {
      if JM.Terminal(p.jm.log[i], id) {
        JM.TerminalOnce(p.jm, p.read, i, id);
      }
    }
  }

  /** Reading the terminal event: until then no ticket and no report existed, afterwards all are quiet. */
  lemma ReadQuiets(s: World, p: nat, id: Uuid)
    requires Inv(s) && p in s.procs && s.procs[p].read < |s.procs[p].jm.log|
    requires JM.Terminal(s.procs[p].jm.log[s.procs[p].read], id)
    ensures NoTicket(s.soup, id) && NoReport(s.soup, id) && Taken(s.rows, id)
    ensures AllQuiet(s.procs[p := ReadEvent(s.procs[p])], id)
  {
    Parts(s);
    KnownProc(s, p);
    hide BackendOk, SoupOk, TableOk, JM.Inv, VMs.ChannelsMatchTasks, VMs.OneCompletionPerLaunch;
    ReaderIsQuiet(s.procs[p], id);
    hide Quiet;
    forall k | k in s.soup ensures !IsTicket(s.soup[k], id) && !IsReport(s.soup[k], id) {
      assert IsTicket(s.soup[k], id) ==> NobodyKnows(s.procs, id);
      assert IsReport(s.soup[k], id) ==> AllQuiet(s.procs, id);
    }
    forall r | r in s.procs && r != p ensures Quiet(s.procs[r], id) {
      assert !Knows(s.procs[r], id);
      KnownProc(s, r);
      StrangerIsQuiet(s.procs[r], id);
    }
  }

  lemma PostReport(procs: map<nat, Proc>, soup: map<nat, Envelope>, m: nat, e: Envelope, id: Uuid)
    requires TokensOk(procs, soup) && m !in soup && IsReport(e, id)
    requires NoTicket(soup, id) && NoReport(soup, id) && AllQuiet(procs, id)
    ensures TokensOk(procs, soup[m := e])
  {
    hide Quiet;
    var after := soup[m := e];
    forall k, i | k in after && IsTicket(after[k], i) ensures NoReport(after, i) && NobodyKnows(procs, i) {
      assert IsTicket(soup[k], i) && NoReport(soup, i);
      assert i != id;
    }
    forall k, i | k in after && IsReport(after[k], i) ensures AllQuiet(procs, i) {
      assert k == m || IsReport(soup[k], i);
    }
  }

  lemma StatusEventStep(s: World, p: nat, m: nat)
    requires Inv(s) && p in s.procs && s.procs[p].read < |s.procs[p].jm.log| && m !in s.soup
    ensures Inv(DoStatusEvent(s, p, m))
  {
    hide Inv, TableOk, ProcOk, OfferOk, JM.Inv, VMs.ChannelsMatchTasks, VMs.OneCompletionPerLaunch;
    var q := s.procs[p];
    var u := SetProc(s, p, ReadEvent(q));
    KnownProc(s, p);
    hide Inv, ProcOk, JM.Inv, VMs.ChannelsMatchTasks, VMs.OneCompletionPerLaunch;
    CalmSame(q, ReadEvent(q));
    ProgressStep(s, p, ReadEvent(q));
    hide LocalOk, Calm;
    var event := q.jm.log[q.read];
    if Report(event).Some? && q.conn.Some? {
      var e := ToServer(q.conn.value, Report(event).value);
      var t := Post(u, m, e);
      ReadQuiets(s, p, event.jobId);
      assert EnvelopeOk(u.rows, u.platforms, e);
      Parts(u);
      hide TokensOk, NoTicket, NoReport, AllQuiet, EnvelopeOk;
      PostReport(u.procs, u.soup, m, e, event.jobId);
      PostToken(u, t, m, e);
    }
  }

  // ---------- All steps, all runs ----------

  lemma BackendKeepsInv(s: World, a: Action)
    requires Inv(s) && Enabled(s, a) && OfBackend(a)
    ensures Inv(Apply(s, a))
  {
    hide Inv, DoSendNotice, DoCheckQueue, DoServerReceive, DoCancel, DoExpire, DoRetry, JobForVm;
    match a
    case CreateJob(id, vm, notify) => CreateJobStep(s, id, vm, notify);
    case SendNotice(n, m) => SendNoticeStep(s, n, m);
    case CheckQueue(conn, locked, m) => CheckQueueStep(s, conn, locked, m);
    case ServerReceive(msg, m) => ServerReceiveStep(s, msg, m);
    case ServerDisconnect(_) => PendingWorkStep(s, Apply(s, a));
    case CancelRequest(id, delivered, m) => CancelStep(s, id, delivered, m);
    case ScanExpired(ids) => ScanStep(s, ids);
    case ExpireJob(id, delivered, m) => ExpireStep(s, id, delivered, m);
    case RetryRead(_, _) => PendingWorkStep(s, Apply(s, a));
    case RetryCommit(k, newId, notify) => RetryCommitStep(s, k, newId, notify);
  }

  lemma ProcessKeepsInv(s: World, a: Action)
    requires Inv(s) && Enabled(s, a) && OfProcess(a)
    ensures Inv(Apply(s, a))
  {
    hide Inv, DoConnect, DoRunnerReceive, DoStatusEvent, LaunchClaimed, MarkRunning, HandleCompletion;
    match a
    case Connect(p, conn) => ConnectStep(s, p, conn);
    case RunnerReceive(p, msg, canAllocate, m) => RunnerReceiveStep(s, p, msg, canAllocate, m);
    case LaunchVm(p) => LaunchStep(s, p);
    case SetRunning(p) => SetRunningStep(s, p);
    case VmExits(p, t, status) => VmExitsStep(s, p, t, status);
    case VmCleansUp(p, t) => VmCleansUpStep(s, p, t);
    case VmCompletion(p) => VmCompletionStep(s, p);
    case StatusEvent(p, m) => StatusEventStep(s, p, m);
    case ShutdownSignal(p) => EndStep(s, p, s.procs[p].(shuttingDown := true));
    case Close(p) => EndStep(s, p, s.procs[p].(closed := true));
  }

  lemma StepKeepsInv(s: World, a: Action)
    requires Inv(s) && Enabled(s, a)
    ensures Inv(Apply(s, a))
  {
    hide Inv;
    if OfBackend(a) {
      hide Enabled, Apply;
      BackendKeepsInv(s, a);
    } else if OfProcess(a) {
      hide Enabled, Apply;
      ProcessKeepsInv(s, a);
    } else {
      hide NewProc;
      match a
      case StartRunner(platform) => StartRunnerStep(s, platform);
      case AskForJob(p, m) => PostStep(s, m, ToServer(s.procs[p].conn.value, RequestJob));
      case Crash(p) => CrashStep(s, p);
      case Lose(msg) => TakeStep(s, msg);
    }
  }

  lemma InitInv()
    ensures Inv(INIT)
  {
    assert IsDepth(INIT.rows, map[]);
  }

  lemma {:induction false} ReachableInv(run: seq<Action>)
    requires Valid(run)
    ensures Inv(After(run))
  {
    hide Inv, Apply, Enabled;
    if run == [] {
      InitInv();
    } else {
      ReachableInv(run[..|run| - 1]);
      StepKeepsInv(After(run[..|run| - 1]), run[|run| - 1]);
    }
  }
}
