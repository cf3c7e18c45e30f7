/** Which of a runner's jobs can still be completed, and when a runner that is shutting down can finish. */
module LifecycleProgress {
  import opened Protocol
  import opened JobTable
  import opened Runner
  import opened Lifecycle
  import opened LifecycleInvariant
  import opened LifecycleSteps
  import opened LifecycleTheorems
  import JM = JobManager
  import VMs = VmManager

  /** A VM of the job has not ended yet. */
  ghost predicate HasTask(p: Proc, id: Uuid) {
    exists t :: VMs.CanExit(p.vms, t) && p.vms.tasks[t].jobId == id
  }

  /** The i-th completion event is the job's. */
  predicate EndedAt(p: Proc, i: nat, id: Uuid) {
    i < |p.vms.completions| && p.vms.completions[i].jobId == id
  }

  ghost predicate HasEnded(p: Proc, id: Uuid) {
    exists i :: EndedAt(p, i, id)
  }

  ghost predicate Unread(p: Proc, id: Uuid) {
    exists i :: p.handled <= i && EndedAt(p, i, id)
  }

  ghost predicate WasRead(p: Proc, id: Uuid) {
    exists i: nat :: i < p.handled && EndedAt(p, i, id)
  }

  /** Running as far as the job manager knows, with nothing left that would complete it. */
  ghost predicate Stranded(p: Proc, id: Uuid) {
    id in p.jm.jobs && p.jm.jobs[id].Running? && !HasTask(p, id) && !Unread(p, id)
  }

  // ---------- One VM per job ----------

  predicate ToLaunch(p: Proc, id: Uuid) {
    p.phase.Registered? && p.phase.id == id
  }

  predicate InHand(p: Proc, id: Uuid) {
    ToLaunch(p, id) || (p.phase.Launched? && p.phase.id == id)
  }

  /** A known job has no VM before its launch, and after it either a task or its one completion event. It is queued
      exactly while the loop has its claim in hand. */
  ghost predicate JobOk(p: Proc, id: Uuid) {
    && (forall i, j | EndedAt(p, i, id) && EndedAt(p, j, id) :: i == j)
    && (if id in p.jm.jobs && !ToLaunch(p, id) then HasTask(p, id) != HasEnded(p, id)
        else !HasTask(p, id) && !HasEnded(p, id))
    && (id in p.jm.jobs && p.jm.jobs[id].Queued? <==> InHand(p, id))
  }

  ghost predicate OneVmPerJob(p: Proc) {
    p.handled <= |p.vms.completions| && forall id :: JobOk(p, id)
  }

  lemma SameVms(p: Proc, q: Proc, id: Uuid)
    requires q.vms == p.vms
    ensures HasTask(q, id) == HasTask(p, id) && HasEnded(q, id) == HasEnded(p, id)
    ensures forall i :: EndedAt(q, i, id) == EndedAt(p, i, id)
  {
    assert forall i :: EndedAt(q, i, id) == EndedAt(p, i, id);
    assert HasEnded(p, id) ==> exists i :: EndedAt(q, i, id);
    assert HasEnded(q, id) ==> exists i :: EndedAt(p, i, id);
  }

  lemma RegisterTracks(p: Proc, id: Uuid, vm: VM)
    requires OneVmPerJob(p) && p.phase.Idle? && id !in p.jm.jobs
    ensures OneVmPerJob(RegisterClaimed(p, id, vm))
  {
    hide HasTask, HasEnded, EndedAt;
    forall i ensures JobOk(RegisterClaimed(p, id, vm), i) {
      SameVms(p, RegisterClaimed(p, id, vm), i);
      assert JobOk(p, i);
    }
  }

  /** A status change that leaves alone the job in hand, or marks it running. */
  lemma UpdateTracks(p: Proc, q: Proc, id: Uuid, status: JobStatus)
    requires OneVmPerJob(p) && q.vms == p.vms && p.handled <= q.handled <= |p.vms.completions|
    requires q.jm == JM.Update(p.jm, id, status) && !status.Queued?
    requires (q.phase == p.phase && (InHand(p, id) ==> status.Complete? && status.completion != Cancelled))
          || (q.phase.Idle? && p.phase == Launched(id) && status == Running)
    ensures OneVmPerJob(q)
  {
    hide HasTask, HasEnded, EndedAt;
    forall i ensures JobOk(q, i) {
      SameVms(p, q, i);
      assert JobOk(p, i);
    }
  }

  lemma LaunchTracks(p: Proc)
    requires OneVmPerJob(p) && p.phase.Registered? && VMs.ChannelsMatchTasks(p.vms)
    ensures OneVmPerJob(LaunchClaimed(p))
  {
    var q := LaunchClaimed(p);
    forall i ensures JobOk(q, i) {
      assert JobOk(p, i);
      assert forall k :: EndedAt(q, k, i) == EndedAt(p, k, i);
      if i == p.phase.id {
        assert VMs.CanExit(q.vms, p.vms.launches);
      } else {
        assert forall t | VMs.CanExit(p.vms, t) && p.vms.tasks[t].jobId == i ::
          VMs.CanExit(q.vms, t) && q.vms.tasks[t].jobId == i;
      }
    }
  }

  /** The end of one job's VM says nothing about another job. */
  lemma ExitOfOther(p: Proc, q: Proc, t: nat, i: Uuid)
    requires VMs.CanExit(p.vms, t) && p.vms.tasks[t].jobId != i
    requires forall k :: EndedAt(q, k, i) == EndedAt(p, k, i)
    requires forall u :: VMs.CanExit(q.vms, u) <==> VMs.CanExit(p.vms, u) && u != t
    requires forall u | u in q.vms.tasks :: u in p.vms.tasks && q.vms.tasks[u].jobId == p.vms.tasks[u].jobId
    ensures HasTask(q, i) == HasTask(p, i) && HasEnded(q, i) == HasEnded(p, i)
  {
    assert HasEnded(p, i) ==> exists k :: EndedAt(q, k, i);
    assert HasEnded(q, i) ==> exists k :: EndedAt(p, k, i);
    if HasTask(p, i) {
      var u :| VMs.CanExit(p.vms, u) && p.vms.tasks[u].jobId == i;
      assert VMs.CanExit(q.vms, u) && q.vms.tasks[u].jobId == i;
    }
  }

  lemma ExitTracks(p: Proc, t: nat, status: VMs.VmExitStatus)
    requires OneVmPerJob(p) && VMs.CanExit(p.vms, t) && VMs.ChannelsMatchTasks(p.vms)
    ensures OneVmPerJob(p.(vms := VMs.Exit(p.vms, t, status)))
  {
    var q, id, last := p.(vms := VMs.Exit(p.vms, t, status)), p.vms.tasks[t].jobId, |p.vms.completions|;
    assert HasTask(p, id);
    forall i ensures JobOk(q, i) {
      assert JobOk(p, i);
      assert forall k :: EndedAt(q, k, i) <==> EndedAt(p, k, i) || (k == last && i == id);
      assert forall u :: VMs.CanExit(q.vms, u) <==> VMs.CanExit(p.vms, u) && u != t;
      if i == id {
        assert EndedAt(q, last, i);
        assert forall u | VMs.CanExit(p.vms, u) && p.vms.tasks[u].jobId == i :: u == t;
      } else {
        ExitOfOther(p, q, t, i);
      }
    }
  }

  lemma CleanUpTracks(p: Proc, t: nat)
    requires OneVmPerJob(p) && VMs.CanCleanUp(p.vms, t)
    ensures OneVmPerJob(p.(vms := VMs.CleanUp(p.vms, t)))
  {
    var q := p.(vms := VMs.CleanUp(p.vms, t));
    forall i ensures JobOk(q, i) {
      assert JobOk(p, i);
      assert forall k :: EndedAt(q, k, i) == EndedAt(p, k, i);
      assert HasEnded(p, i) ==> exists k :: EndedAt(q, k, i);
      assert HasEnded(q, i) ==> exists k :: EndedAt(p, k, i);
      assert forall u :: VMs.CanExit(q.vms, u) == VMs.CanExit(p.vms, u);
      if HasTask(p, i) {
        var u :| VMs.CanExit(p.vms, u) && p.vms.tasks[u].jobId == i;
        assert VMs.CanExit(q.vms, u) && q.vms.tasks[u].jobId == i;
      }
    }
  }

  /** Nothing the bookkeeping looks at changes. */
  lemma IdleTracks(p: Proc, q: Proc)
    requires OneVmPerJob(p) && q.vms == p.vms && q.jm.jobs == p.jm.jobs && q.phase == p.phase && q.handled == p.handled
    ensures OneVmPerJob(q)
  {
    hide HasTask, HasEnded, EndedAt;
    forall i ensures JobOk(q, i) {
      SameVms(p, q, i);
      assert JobOk(p, i);
    }
  }

  // ---------- In every reachable state ----------

  ghost predicate Tracked(s: World) {
    forall p | p in s.procs :: OneVmPerJob(s.procs[p])
  }

  lemma ClaimedIsNew(s: World, msg: nat, p: nat, id: Uuid)
    requires Inv(s) && msg in s.soup && IsTicket(s.soup[msg], id) && p in s.procs
    ensures id !in s.procs[p].jm.jobs
  {
    hide BackendOk, SoupOk, ProcsOk;
    assert NobodyKnows(s.procs, id);
    assert !Knows(s.procs[p], id);
  }

  lemma MessageTracks(s: World, a: Action)
    requires a.RunnerReceive? && a.p in s.procs && OneVmPerJob(s.procs[a.p])
    requires Enabled(s, a) && Inv(s)
    ensures a.p in Apply(s, a).procs && OneVmPerJob(Apply(s, a).procs[a.p])
  {
    hide Inv, JobOk, JM.Update, JM.Register;
    var q, r := s.procs[a.p], Apply(s, a).procs[a.p];
    match s.soup[a.msg].smsg
    case NewJobAvailable(_, _) =>
    case JobClaimed(id, vm) =>
      ClaimedIsNew(s, a.msg, a.p, id);
      RegisterTracks(q, id, vm);
    case JobTimedOut(id) => UpdateTracks(q, r, id, Complete(TimedOut));
    case JobCancelled(id) => UpdateTracks(q, r, id, Complete(Cancelled));
  }

  lemma ProgressTracks(s: World, a: Action)
    requires OfProcess(a) && !a.RunnerReceive? && a.p in s.procs && OneVmPerJob(s.procs[a.p])
    requires Enabled(s, a) && Inv(s)
    ensures a.p in Apply(s, a).procs && OneVmPerJob(Apply(s, a).procs[a.p])
  {
    hide Inv, JM.Inv, JM.Update, VMs.OneCompletionPerLaunch, VMs.ChannelsMatchTasks, VMs.Launch, VMs.Exit, VMs.CleanUp;
    hide DoConnect, DoStatusEvent, ProcOk, JobOk;
    var q, r := s.procs[a.p], Apply(s, a).procs[a.p];
    KnownProc(s, a.p);
    if a.LaunchVm? {
      LaunchTracks(q);
    } else if a.SetRunning? {
      UpdateTracks(q, r, q.phase.id, Running);
    } else if a.VmExits? {
      ExitTracks(q, a.t, a.status);
    } else if a.VmCleansUp? {
      CleanUpTracks(q, a.t);
    } else if a.VmCompletion? {
      var c := q.vms.completions[q.handled];
      UpdateTracks(q, r, c.jobId, Complete(CompletionOf(c.status)));
    } else {
      IdleTracks(q, r);
    }
  }

  lemma NewProcTracks(platform: Platform)
    ensures OneVmPerJob(NewProc(platform))
  {
  }

  lemma StepTracks(s: World, a: Action)
    requires Inv(s) && Enabled(s, a) && Tracked(s)
    ensures Tracked(Apply(s, a))
  {
    hide Inv, Apply, Happens, OneVmPerJob;
    forall p | p in Apply(s, a).procs ensures OneVmPerJob(Apply(s, a).procs[p]) {
      if OfProcess(a) && a.p == p {
        assert p in s.procs;
        if a.RunnerReceive? {
          MessageTracks(s, a);
        } else {
          ProgressTracks(s, a);
        }
      } else {
        OtherProcsStay(s, a, p);
        if a.StartRunner? {
          NewProcTracks(a.platform);
        }
      }
    }
  }

  lemma {:induction false} ReachableTracked(run: seq<Action>)
    requires Valid(run)
    ensures Tracked(After(run))
  {
    hide Inv, Apply, Enabled;
    if run == [] {
      assert After(run).procs == map[];
    } else {
      var front := run[..|run| - 1];
      ReachableInv(front);
      ReachableTracked(front);
      StepTracks(After(front), run[|run| - 1]);
    }
  }

  // ---------- Stranded jobs ----------

  /** A running job is stranded exactly if its completion event was read before it was running, and so dropped. */
  lemma StrandedIff(p: Proc, id: Uuid)
    requires OneVmPerJob(p) && id in p.jm.jobs && p.jm.jobs[id].Running?
    ensures Stranded(p, id) <==> WasRead(p, id)
  {
    assert JobOk(p, id);
    if HasEnded(p, id) {
      var i :| EndedAt(p, i, id);
    }
  }

  /** Marking a job as running strands it exactly if its VM has ended and the event was read in between. */
  lemma MarkingStrandsIff(p: Proc)
    requires OneVmPerJob(p) && p.phase.Launched?
    ensures Stranded(MarkRunning(p), p.phase.id) <==> WasRead(p, p.phase.id)
  {
    var q, id := MarkRunning(p), p.phase.id;
    assert JobOk(p, id) && InHand(p, id);
    UpdateTracks(p, q, id, Running);
    StrandedIff(q, id);
    SameVms(p, q, id);
    assert WasRead(q, id) ==> exists i: nat :: i < p.handled && EndedAt(p, i, id);
    assert WasRead(p, id) ==> exists i: nat :: i < q.handled && EndedAt(q, i, id);
  }

  /** In every reachable state the running jobs without a task and without an unread event are exactly those whose
      event has been read: nothing else was lost. */
  lemma WhoIsStranded(run: seq<Action>, p: nat, id: Uuid)
    requires Valid(run) && p in After(run).procs
    requires id in After(run).procs[p].jm.jobs && After(run).procs[p].jm.jobs[id].Running?
    ensures Stranded(After(run).procs[p], id) <==> WasRead(After(run).procs[p], id)
  {
    ReachableTracked(run);
    StrandedIff(After(run).procs[p], id);
  }

  /** The process is told that the job was cancelled or took too long. */
  predicate IsTold(s: World, a: Action, p: nat, id: Uuid) {
    && Enabled(s, a) && a.RunnerReceive? && a.p == p
    && (s.soup[a.msg].smsg == JobTimedOut(id) || s.soup[a.msg].smsg == JobCancelled(id))
  }

  lemma StrandedByParts(p: Proc, q: Proc, id: Uuid)
    requires Stranded(p, id)
    requires id in q.jm.jobs && q.jm.jobs[id].Running? && p.handled <= q.handled
    requires forall t | VMs.CanExit(q.vms, t) && q.vms.tasks[t].jobId == id ::
               VMs.CanExit(p.vms, t) && p.vms.tasks[t].jobId == id
    requires forall i | EndedAt(q, i, id) :: EndedAt(p, i, id)
    ensures Stranded(q, id)
  {
  }

  lemma MessageKeepsStranded(s: World, a: Action, id: Uuid)
    requires a.RunnerReceive? && a.p in s.procs && Stranded(s.procs[a.p], id)
    requires Enabled(s, a) && Inv(s) && !IsTold(s, a, a.p, id)
    ensures a.p in Apply(s, a).procs && Stranded(Apply(s, a).procs[a.p], id)
  {
    hide Inv;
    var q, r := s.procs[a.p], Apply(s, a).procs[a.p];
    match s.soup[a.msg].smsg
    case JobClaimed(i, _) =>
      ClaimedIsNew(s, a.msg, a.p, i);
      StrandedByParts(q, r, id);
    case _ => StrandedByParts(q, r, id);
  }

  lemma RunningIsNotInHand(p: Proc, id: Uuid)
    requires OneVmPerJob(p) && id in p.jm.jobs && p.jm.jobs[id].Running?
    ensures !InHand(p, id)
  {
    assert JobOk(p, id);
  }

  lemma LaunchKeepsStranded(p: Proc, id: Uuid)
    requires Stranded(p, id) && p.phase.Registered? && !InHand(p, id)
    ensures Stranded(LaunchClaimed(p), id)
  {
    StrandedByParts(p, LaunchClaimed(p), id);
  }

  lemma ExitKeepsStranded(p: Proc, t: nat, status: VMs.VmExitStatus, id: Uuid)
    requires Stranded(p, id) && VMs.CanExit(p.vms, t)
    ensures Stranded(p.(vms := VMs.Exit(p.vms, t, status)), id)
  {
    StrandedByParts(p, p.(vms := VMs.Exit(p.vms, t, status)), id);
  }

  lemma CleanUpKeepsStranded(p: Proc, t: nat, id: Uuid)
    requires Stranded(p, id) && VMs.CanCleanUp(p.vms, t)
    ensures Stranded(p.(vms := VMs.CleanUp(p.vms, t)), id)
  {
    StrandedByParts(p, p.(vms := VMs.CleanUp(p.vms, t)), id);
  }

  lemma CompletionKeepsStranded(p: Proc, id: Uuid)
    requires Stranded(p, id) && p.handled < |p.vms.completions|
    ensures Stranded(HandleCompletion(p), id)
  {
    assert EndedAt(p, p.handled, p.vms.completions[p.handled].jobId);
    assert p.vms.completions[p.handled].jobId != id;
    StrandedByParts(p, HandleCompletion(p), id);
  }

  lemma ProgressKeepsStranded(s: World, a: Action, id: Uuid)
    requires OfProcess(a) && !a.RunnerReceive? && a.p in s.procs
    requires Stranded(s.procs[a.p], id) && OneVmPerJob(s.procs[a.p])
    requires Enabled(s, a)
    ensures a.p in Apply(s, a).procs && Stranded(Apply(s, a).procs[a.p], id)
  {
    hide DoConnect, DoStatusEvent, OneVmPerJob, HasTask, Unread, VMs.Launch, VMs.Exit, VMs.CleanUp;
    var q, r := s.procs[a.p], Apply(s, a).procs[a.p];
    RunningIsNotInHand(q, id);
    if a.LaunchVm? {
      LaunchKeepsStranded(q, id);
    } else if a.VmExits? {
      ExitKeepsStranded(q, a.t, a.status, id);
    } else if a.VmCleansUp? {
      CleanUpKeepsStranded(q, a.t, id);
    } else if a.VmCompletion? {
      CompletionKeepsStranded(q, id);
    } else {
      SameVms(q, r, id);
      StrandedByParts(q, r, id);
    }
  }

  lemma BeingToldCompletes(s: World, a: Action, id: Uuid)
    requires a.RunnerReceive? && a.p in s.procs && Stranded(s.procs[a.p], id)
    requires IsTold(s, a, a.p, id)
    ensures a.p in Apply(s, a).procs
    ensures id in Apply(s, a).procs[a.p].jm.jobs && Apply(s, a).procs[a.p].jm.jobs[id].Complete?
  {
  }

  /** A stranded job stays stranded in exactly the steps that do not tell its process. */
  lemma StrandedStaysIff(s: World, a: Action, p: nat, id: Uuid)
    requires p in s.procs && Stranded(s.procs[p], id) && Tracked(s)
    requires Inv(s) && Enabled(s, a) && p in Apply(s, a).procs
    ensures Stranded(Apply(s, a).procs[p], id) <==> !IsTold(s, a, p, id)
  {
    hide Inv, OneVmPerJob, Happens;
    if IsTold(s, a, p, id) {
      hide Enabled, Apply;
      BeingToldCompletes(s, a, id);
    } else if OfProcess(a) && a.p == p {
      hide Enabled, Apply;
      assert OneVmPerJob(s.procs[p]);
      if a.RunnerReceive? {
        MessageKeepsStranded(s, a, id);
      } else {
        ProgressKeepsStranded(s, a, id);
      }
    } else {
      hide Enabled, Apply;
      KnownProc(s, p);
      OtherProcsStay(s, a, p);
    }
  }

  ghost predicate StrandedAt(run: seq<Action>, k: nat, p: nat, id: Uuid)
    requires k <= |run|
  {
    Valid(run[..k]) && p in After(run[..k]).procs && Stranded(After(run[..k]).procs[p], id)
  }

  ghost predicate ToldAt(run: seq<Action>, k: nat, p: nat, id: Uuid)
    requires k < |run|
  {
    Valid(run[..k]) && IsTold(After(run[..k]), run[k], p, id)
  }

  lemma NextStranded(run: seq<Action>, k: nat, p: nat, id: Uuid)
    requires Valid(run) && k < |run| && StrandedAt(run, k, p, id)
    requires Valid(run[..k + 1]) && p in After(run[..k + 1]).procs
    ensures StrandedAt(run, k + 1, p, id) <==> !ToldAt(run, k, p, id)
  {
    hide Inv, Enabled, Apply, IsTold, Stranded;
    RunStep(run, k);
    ReachableTracked(run[..k]);
    StrandedStaysIff(After(run[..k]), run[k], p, id);
  }

  lemma LivesBetween(run: seq<Action>, i: nat, j: nat, p: nat, id: Uuid)
    requires Valid(run) && i < j <= |run| && StrandedAt(run, i, p, id)
    requires Valid(run[..j]) && p in After(run[..j]).procs
    ensures Valid(run[..j - 1]) && p in After(run[..j - 1]).procs
  {
    hide Inv, Enabled, Apply, Stranded;
    ProcPersists(run, i, j, p);
    assert p in After(run[..j - 1]).procs;
  }

  /** Over any stretch of a run a stranded job stays so throughout exactly if its process, which lives through the
      stretch, is not told of its cancellation or timeout. */
  lemma {:induction false} StrandedUntilTold(run: seq<Action>, i: nat, j: nat, p: nat, id: Uuid)
    requires Valid(run) && i <= j <= |run| && StrandedAt(run, i, p, id)
    requires Valid(run[..j]) && p in After(run[..j]).procs
    ensures (forall k | i <= k <= j :: StrandedAt(run, k, p, id)) <==> (forall k | i <= k < j :: !ToldAt(run, k, p, id))
    decreases j - i
  {
    hide StrandedAt, ToldAt, Inv, Enabled, Apply;
    if i == j {
    } else {
      LivesBetween(run, i, j, p, id);
      StrandedUntilTold(run, i, j - 1, p, id);
      if forall k | i <= k <= j - 1 :: StrandedAt(run, k, p, id) {
        NextStranded(run, j - 1, p, id);
      }
    }
  }

  // ---------- Finishing ----------

  /** Some continuation of the run brings the process to its graceful exit. */
  ghost predicate CanFinish(run: seq<Action>, p: nat) {
    exists more :: Finishes(run + more, p)
  }

  ghost predicate Finishes(run: seq<Action>, p: nat) {
    Valid(run) && p in After(run).procs && MayClose(After(run).procs[p])
  }

  ghost predicate Leaving(run: seq<Action>, p: nat) {
    Valid(run) && p in After(run).procs && After(run).procs[p].shuttingDown && !After(run).procs[p].closed
  }

  lemma ShuttingDownIsDeaf(s: World, a: Action, p: nat, id: Uuid)
    requires p in s.procs && s.procs[p].shuttingDown
    ensures !IsTold(s, a, p, id)
  {
  }

  /** While shutting down nothing is read from the server, so nobody is told. */
  lemma LeavingIsDeaf(run: seq<Action>, i: nat, k: nat, p: nat, id: Uuid)
    requires Valid(run) && i <= k < |run| && Leaving(run[..i], p)
    requires Valid(run[..k]) && p in After(run[..k]).procs
    ensures !ToldAt(run, k, p, id)
  {
    hide Inv, Enabled, Apply, IsTold;
    PrefixValid(run, i);
    ShutdownFreezes(run, i, k, p);
    ShuttingDownIsDeaf(After(run[..k]), run[k], p, id);
  }

  lemma StrandedIsActive(p: Proc, id: Uuid)
    requires Stranded(p, id)
    ensures id in JM.ActiveIds(p.jm.jobs) && !MayClose(p)
  {
  }

  lemma StrandedNeverFinishes(run: seq<Action>, more: seq<Action>, p: nat, id: Uuid)
    requires Leaving(run, p) && Stranded(After(run).procs[p], id)
    ensures !Finishes(run + more, p)
  {
    hide Inv, Stranded;
    var all := run + more;
    if Valid(all) && p in After(all).procs {
      assert all[..|run|] == run && all[..|all|] == all;
      ProcPersists(all, |run|, |all|, p);
      forall k | |run| <= k < |all| ensures !ToldAt(all, k, p, id) {
        LeavingIsDeaf(all, |run|, k, p, id);
      }
      StrandedUntilTold(all, |run|, |all|, p, id);
      assert StrandedAt(all, |all|, p, id);
      StrandedIsActive(After(all).procs[p], id);
    }
  }

  ghost function LiveTasks(p: Proc): set<nat> {
    set t | t in p.vms.tasks && !p.vms.tasks[t].exited
  }

  ghost predicate NoneStranded(p: Proc) {
    forall id :: !Stranded(p, id)
  }

  /** A VM's end and the reading of an event strand nobody while no claim is in hand. */
  lemma ExitStrandsNobody(p: Proc, t: nat, status: VMs.VmExitStatus)
    requires OneVmPerJob(p) && NoneStranded(p) && VMs.CanExit(p.vms, t)
    ensures var q := p.(vms := VMs.Exit(p.vms, t, status));
            NoneStranded(q) && LiveTasks(q) == LiveTasks(p) - {t} && |q.vms.completions| == |p.vms.completions| + 1
  {
    var q, last := p.(vms := VMs.Exit(p.vms, t, status)), |p.vms.completions|;
    forall id ensures !Stranded(q, id) {
      assert !Stranded(p, id);
      if HasTask(p, id) {
        var u :| VMs.CanExit(p.vms, u) && p.vms.tasks[u].jobId == id;
        assert u != t ==> VMs.CanExit(q.vms, u) && q.vms.tasks[u].jobId == id;
        assert u == t ==> p.handled <= last && EndedAt(q, last, id);
      } else if Unread(p, id) {
        var i :| p.handled <= i && EndedAt(p, i, id);
        assert q.handled <= i && EndedAt(q, i, id);
      }
    }
  }

  lemma ReadingStrandsNobody(p: Proc)
    requires OneVmPerJob(p) && NoneStranded(p) && p.phase.Idle? && p.handled < |p.vms.completions|
    ensures NoneStranded(HandleCompletion(p))
  {
    var q, c := HandleCompletion(p), p.vms.completions[p.handled].jobId;
    assert JobOk(p, c) && EndedAt(p, p.handled, c);
    forall id ensures !Stranded(q, id) {
      assert !Stranded(p, id);
      if HasTask(p, id) {
        SameVms(p, q, id);
      } else if id != c && Unread(p, id) {
        var i :| p.handled <= i && EndedAt(p, i, id);
        assert q.handled <= i && EndedAt(q, i, id);
      }
    }
  }

  /** With no task and no event left, whoever is active is stranded. */
  lemma NothingLeftMeansIdle(p: Proc)
    requires OneVmPerJob(p) && NoneStranded(p) && p.phase.Idle?
    requires LiveTasks(p) == {} && p.handled == |p.vms.completions|
    ensures JM.ActiveIds(p.jm.jobs) == {}
  {
    forall id | id in p.jm.jobs ensures p.jm.jobs[id].Complete? {
      assert JobOk(p, id) && !Stranded(p, id);
      assert forall t :: VMs.CanExit(p.vms, t) ==> t in LiveTasks(p);
    }
  }

  ghost function ToDo(p: Proc): nat
    requires p.handled <= |p.vms.completions|
  {
    2 * |LiveTasks(p)| + (|p.vms.completions| - p.handled)
  }

  lemma Extend(run: seq<Action>, a: Action)
    requires Valid(run) && Enabled(After(run), a)
    ensures Valid(run + [a]) && After(run + [a]) == Apply(After(run), a)
  {
    hide Enabled, Apply;
    assert (run + [a])[..|run|] == run;
  }

  /** Still on its way out, with less to do. */
  ghost predicate Closer(p: Proc, q: Proc)
    requires p.handled <= |p.vms.completions|
  {
    && q.shuttingDown && !q.closed && NoneStranded(q)
    && q.handled <= |q.vms.completions| && ToDo(q) < ToDo(p)
  }

  lemma ExitIsCloser(p: Proc, t: nat)
    requires OneVmPerJob(p) && NoneStranded(p) && VMs.CanExit(p.vms, t) && p.shuttingDown && !p.closed
    ensures Closer(p, p.(vms := VMs.Exit(p.vms, t, VMs.ExitSuccess)))
  {
    hide NoneStranded, JobOk;
    ExitStrandsNobody(p, t, VMs.ExitSuccess);
    assert t in LiveTasks(p);
  }

  lemma ReadingIsCloser(p: Proc)
    requires OneVmPerJob(p) && NoneStranded(p) && p.phase.Idle? && p.shuttingDown && !p.closed
    requires p.handled < |p.vms.completions|
    ensures Closer(p, HandleCompletion(p))
  {
    hide NoneStranded, JobOk;
    ReadingStrandsNobody(p);
    assert LiveTasks(HandleCompletion(p)) == LiveTasks(p);
  }

  /** Ends one VM, or reads one event, whichever is left to do. */
  lemma OneStepCloser(s: World, p: nat) returns (a: Action)
    requires p in s.procs && s.procs[p].shuttingDown && !s.procs[p].closed && s.procs[p].phase.Idle?
    requires OneVmPerJob(s.procs[p]) && NoneStranded(s.procs[p]) && !MayClose(s.procs[p])
    ensures Enabled(s, a) && p in Apply(s, a).procs && Closer(s.procs[p], Apply(s, a).procs[p])
  {
    var q := s.procs[p];
    if LiveTasks(q) != {} {
      var t :| t in LiveTasks(q);
      a := VmExits(p, t, VMs.ExitSuccess);
      hide NoneStranded, JobOk, Closer, VMs.Exit;
      ExitIsCloser(q, t);
    } else {
      hide NoneStranded, JobOk, Closer, HandleCompletion;
      if q.handled == |q.vms.completions| {
        NothingLeftMeansIdle(q);
      }
      a := VmCompletion(p);
      ReadingIsCloser(q);
    }
  }

  lemma LeavingIsIdle(run: seq<Action>, p: nat)
    requires Leaving(run, p)
    ensures After(run).procs[p].phase.Idle?
  {
    hide Inv;
    ReachableInv(run);
    KnownProc(After(run), p);
  }

  lemma {:induction false} Finish(run: seq<Action>, p: nat) returns (more: seq<Action>)
    requires Leaving(run, p) && NoneStranded(After(run).procs[p]) && OneVmPerJob(After(run).procs[p])
    ensures Finishes(run + more, p)
    decreases ToDo(After(run).procs[p])
  {
    hide Enabled, Apply, JobOk, NoneStranded, MayClose, ToDo;
    if MayClose(After(run).procs[p]) {
      more := [];
      assert run + more == run;
    } else {
      LeavingIsIdle(run, p);
      var a := OneStepCloser(After(run), p);
      Extend(run, a);
      ReachableTracked(run + [a]);
      var rest := Finish(run + [a], p);
      more := [a] + rest;
      assert run + more == run + [a] + rest;
    }
  }

  lemma StrandedCannotFinish(run: seq<Action>, p: nat, id: Uuid)
    requires Leaving(run, p) && Stranded(After(run).procs[p], id)
    ensures !CanFinish(run, p)
  {
    hide Stranded, Finishes;
    forall more ensures !Finishes(run + more, p) {
      StrandedNeverFinishes(run, more, p, id);
    }
  }

  /** A process that is shutting down can still reach its graceful exit exactly if none of its jobs is stranded. */
  lemma CanFinishIff(run: seq<Action>, p: nat)
    requires Leaving(run, p)
    ensures CanFinish(run, p) <==> forall id :: !Stranded(After(run).procs[p], id)
  {
    hide Stranded, Finishes;
    if NoneStranded(After(run).procs[p]) {
      ReachableTracked(run);
      var more := Finish(run, p);
      assert Finishes(run + more, p);
    } else {
      var id :| Stranded(After(run).procs[p], id);
      StrandedCannotFinish(run, p, id);
    }
  }
}
