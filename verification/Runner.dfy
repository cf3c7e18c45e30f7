/** One runner process: its job and VM managers and the main event loop around them. */
module Runner {
  import opened Protocol
  import Allocator
  import JM = JobManager
  import VMs = VmManager

  /** How far the loop got with the `JobClaimed` message in its hands; other tasks run in between. */
  datatype Phase = Idle | Registered(id: Uuid, vm: VM) | Launched(id: Uuid)

  /** `read` and `handled` count the status events and VM completions already taken off their channels. */
  datatype Proc = Proc(
    platform: Platform,
    conn: Option<Uuid>,
    jm: JM.Manager,
    read: nat,
    vms: VMs.Vms,
    handled: nat,
    phase: Phase,
    shuttingDown: bool,
    closed: bool)

  function NewProc(platform: Platform): Proc {
    Proc(platform, None, JM.EMPTY, 0, VMs.EMPTY, 0, Idle, false, false)
  }

  /** The loop is at its `select!`. */
  predicate AtSelect(p: Proc) {
    p.phase.Idle? && !p.closed
  }

  /** Server messages are only read while not shutting down. */
  predicate Listening(p: Proc) {
    AtSelect(p) && !p.shuttingDown
  }

  function RegisterClaimed(p: Proc, id: Uuid, vm: VM): Proc {
    p.(jm := JM.Register(p.jm, id), phase := Registered(id, vm))
  }

  function LaunchClaimed(p: Proc): Proc
    requires p.phase.Registered?
  {
    p.(vms := VMs.Launch(p.vms, p.phase.id, p.phase.vm), phase := Launched(p.phase.id))
  }

  function MarkRunning(p: Proc): Proc
    requires p.phase.Launched?
  {
    p.(jm := JM.Update(p.jm, p.phase.id, Running), phase := Idle)
  }

  function CompleteJob(p: Proc, id: Uuid, status: CompletionStatus): Proc {
    p.(jm := JM.Update(p.jm, id, Complete(status)))
  }

  function CompletionOf(status: VMs.VmExitStatus): CompletionStatus {
    match status
    case ExitSuccess => Success
    case ExitFailure => Failed
  }

  /** The completion task takes the next VM event. */
  function HandleCompletion(p: Proc): Proc
    requires p.handled < |p.vms.completions|
  {
    var c := p.vms.completions[p.handled];
    CompleteJob(p, c.jobId, CompletionOf(c.status)).(handled := p.handled + 1)
  }

  /** What the loop sends for a status event: only completions reach the backend. */
  function Report(e: JM.JobStatusEvent): Option<ClientMessage> {
    if e.status.Complete? then Some(UpdateJobStatus(e.jobId, e.status)) else None
  }

  function ReadEvent(p: Proc): Proc {
    p.(read := p.read + 1)
  }

  predicate MayClose(p: Proc) {
    AtSelect(p) && p.shuttingDown && JM.ActiveIds(p.jm.jobs) == {}
  }

  /** A server message handled start to finish with nothing in between. */
  function HandleMessage(p: Proc, message: ServerMessage): Proc {
    match message
    case NewJobAvailable(_, _) => p
    case JobClaimed(id, vm) => MarkRunning(LaunchClaimed(RegisterClaimed(p, id, vm)))
    case JobTimedOut(id) => CompleteJob(p, id, TimedOut)
    case JobCancelled(id) => CompleteJob(p, id, Cancelled)
  }

  /** A claimed job gets its entry, its VM and its channel, and then counts as running, whatever was there before. */
  lemma ClaimedJobIsLaunched(p: Proc, id: Uuid, vm: VM)
    ensures var q := HandleMessage(p, JobClaimed(id, vm));
            && id in q.jm.jobs && q.jm.jobs[id] == Running
            && q.vms.launches == p.vms.launches + 1
            && p.vms.launches in q.vms.tasks && q.vms.tasks[p.vms.launches] == VMs.Task(id, vm, false)
            && id in q.vms.channels && q.vms.channels[id] == p.vms.launches
            && q.vms.completions == p.vms.completions && q.handled == p.handled && q.read == p.read
            && q.jm.log == p.jm.log + [JM.JobStatusEvent(id, Queued)] + [JM.JobStatusEvent(id, Running)]
  {
  }

  /** Being told of a timeout or a cancellation records exactly that verdict of a running job, and touches no VM. */
  lemma ToldVerdict(p: Proc, id: Uuid)
    requires id in p.jm.jobs && p.jm.jobs[id] == Running
    ensures var q := HandleMessage(p, JobTimedOut(id));
            q.jm.jobs == p.jm.jobs[id := Complete(TimedOut)] && q.vms == p.vms
            && q.jm.log == p.jm.log + [JM.JobStatusEvent(id, Complete(TimedOut))]
    ensures var q := HandleMessage(p, JobCancelled(id));
            q.jm.jobs == p.jm.jobs[id := Complete(Cancelled)] && q.vms == p.vms
            && q.jm.log == p.jm.log + [JM.JobStatusEvent(id, Complete(Cancelled))]
  {
  }

  /** The end of a running job's VM records a success exactly if the VM ended well, and a failure otherwise. */
  lemma EndVerdict(p: Proc)
    requires p.handled < |p.vms.completions|
    requires var id := p.vms.completions[p.handled].jobId; id in p.jm.jobs && p.jm.jobs[id] == Running
    ensures var c, q := p.vms.completions[p.handled], HandleCompletion(p);
            && q.handled == p.handled + 1 && q.vms == p.vms
            && (c.status == VMs.ExitSuccess ==> q.jm.jobs == p.jm.jobs[c.jobId := Complete(Success)])
            && (c.status == VMs.ExitFailure ==> q.jm.jobs == p.jm.jobs[c.jobId := Complete(Failed)])
  {
  }

  /** A completion is reported with its own verdict; nothing else is reported. */
  lemma ReportIsTrue(e: JM.JobStatusEvent)
    ensures forall c :: e.status == Complete(c) ==> Report(e) == Some(UpdateJobStatus(e.jobId, Complete(c)))
    ensures e.status == Queued || e.status == Running ==> Report(e) == None
  {
  }

  /** A VM's end is recorded, and so reported, exactly if its job is marked running by then. */
  lemma ExitCountsIffRunning(p: Proc)
    requires p.handled < |p.vms.completions|
    ensures var c := p.vms.completions[p.handled];
            HandleCompletion(p).jm.log == p.jm.log + [JM.JobStatusEvent(c.jobId, Complete(CompletionOf(c.status)))]
            <==> c.jobId in p.jm.jobs && p.jm.jobs[c.jobId].Running?
  {
    var c := p.vms.completions[p.handled];
    if !(c.jobId in p.jm.jobs && p.jm.jobs[c.jobId].Running?) {
      assert |HandleCompletion(p).jm.log| == |p.jm.log|;
    }
  }

  /** A VM that ends before that has its completion event used up while its job goes on to count as running. */
  lemma EarlyExitStrandsJob(p: Proc)
    requires p.phase.Launched? && p.handled < |p.vms.completions|
    requires p.vms.completions[p.handled].jobId == p.phase.id
    requires p.phase.id in p.jm.jobs && p.jm.jobs[p.phase.id].Queued?
    ensures var q := MarkRunning(HandleCompletion(p));
            && q.jm.jobs[p.phase.id] == Running && q.jm.log == p.jm.log + [JM.JobStatusEvent(p.phase.id, Running)]
            && q.handled == p.handled + 1 && q.vms == p.vms
  {
  }

  // ---------- The process ----------

  class RunnerProcess {
    const platform: Platform
    const jobManager: JM.JobManager
    const vmManager: VMs.VmManager
    const resources: Allocator.ResourceManager
    var connection: Option<Uuid>
    var sent: seq<ClientMessage>
    var eventsRead: nat
    var completionsHandled: nat
    var shuttingDown: bool
    var closed: bool

    function View(): Proc
      reads this, jobManager, vmManager
    {
      Proc(platform, connection, jobManager.View(), eventsRead, vmManager.View(), completionsHandled,
           Idle, shuttingDown, closed)
    }

    constructor (platform: Platform, limits: Allocator.Limits)
      ensures View() == NewProc(platform) && sent == [] && resources.View() == Allocator.NO_JOBS
      ensures fresh(jobManager) && fresh(vmManager) && fresh(resources)
    {
      this.platform := platform;
      jobManager := new JM.JobManager();
      vmManager := new VMs.VmManager();
      resources := new Allocator.ResourceManager(limits);
      connection, sent, eventsRead, completionsHandled := None, [], 0, 0;
      shuttingDown, closed := false, false;
    }

    /** Claiming reserves nothing. `ended` tells whether the VM task ends just when it is to be shut down. */
    method HandleServerMessage(message: ServerMessage, ended: bool)
      modifies this, jobManager, vmManager, resources
      ensures View() == if old(shuttingDown) && (message.NewJobAvailable? || message.JobClaimed?)
                        then old(View()) else HandleMessage(old(View()), message)
      ensures sent == old(sent) + if message.NewJobAvailable? && !old(shuttingDown)
                                     && Allocator.Fits(old(resources.View()), message.vm, resources.limits)
                                  then [ClaimJob(message.id, message.vm)] else []
      ensures vmManager.shutdownsSent == if (message.JobTimedOut? || message.JobCancelled?) && !ended
                then VMs.Told(old(vmManager.shutdownsSent), old(vmManager.controlChannels), message.id)
                else old(vmManager.shutdownsSent)
      ensures resources.View() == if message.JobCancelled? && ended && message.id in old(vmManager.controlChannels)
                then Allocator.Release(old(resources.View()), message.id)
                else old(resources.View())
    {
      match message {
        case NewJobAvailable(id, vm) =>
          if shuttingDown {
            return;
          }
          var fits := resources.CanAllocate(vm.cpuCount, vm.memorySizeMb);
          if fits {
            sent := sent + [ClaimJob(id, vm)];
          }
        case JobClaimed(id, vm) =>
          if shuttingDown {
            return;
          }
          jobManager.RegisterJob(id);
          vmManager.LaunchVm(id, vm);
          var _ := jobManager.UpdateJobStatus(id, Running);
        case JobTimedOut(id) =>
          var _ := jobManager.UpdateJobStatus(id, Complete(TimedOut));
          var _ := vmManager.ShutdownVm(id, ended);
        case JobCancelled(id) =>
          var _ := jobManager.UpdateJobStatus(id, Complete(Cancelled));
          var outcome := vmManager.ShutdownVm(id, ended);
          if outcome.SendFailed? {
            var _ := resources.ReleaseJob(id);
          }
      }
    }

    /** The status-event arm of the loop; after a completion another job is asked for, if one CPU would fit. */
    method HandleStatusEvent()
      requires eventsRead < |jobManager.log|
      modifies this
      ensures View() == ReadEvent(old(View()))
      ensures var report := Report(jobManager.log[old(eventsRead)]);
              var room := Allocator.CheckLimits(resources.View(), 1, 0, resources.limits).None?;
              sent == old(sent) + (if report.Some? then [report.value] else [])
                                + (if report.Some? && !shuttingDown && room then [RequestJob] else [])
      ensures var event := jobManager.log[old(eventsRead)];
              forall c :: event.status == Complete(c) ==>
                            old(sent) + [UpdateJobStatus(event.jobId, Complete(c))] <= sent
    {
      var event := jobManager.log[eventsRead];
      eventsRead := eventsRead + 1;
      match event.status {
        case Complete(status) =>
          sent := sent + [UpdateJobStatus(event.jobId, Complete(status))];
          if !shuttingDown {
            var room := resources.HasMinimalCapacity();
            if room {
              sent := sent + [RequestJob];
            }
          }
        case Running =>
        case Queued =>
      }
    }

    method HandleVmCompletion()
      requires completionsHandled < |vmManager.completions|
      modifies this, jobManager
      ensures View() == HandleCompletion(old(View())) && sent == old(sent)
    {
      var event := vmManager.completions[completionsHandled];
      completionsHandled := completionsHandled + 1;
      var status;
      match event.status {
        case ExitSuccess => status := Success;
        case ExitFailure => status := Failed;
      }
      var _ := jobManager.UpdateJobStatus(event.jobId, Complete(status));
    }

    method HandleShutdownSignal()
      modifies this
      ensures View() == old(View()).(shuttingDown := true) && sent == old(sent)
    {
      shuttingDown := true;
    }

    /** The check at the top of the loop. */
    method CloseIfDone() returns (exit: bool)
      requires !closed
      modifies this
      ensures exit <==> MayClose(old(View()))
      ensures exit <==> shuttingDown && forall id | id in jobManager.jobs :: jobManager.jobs[id].Complete?
      ensures View() == old(View()).(closed := exit) && sent == old(sent)
    {
      exit := false;
      if shuttingDown {
        var active := jobManager.ActiveJobCount();
        exit := active == 0;
        assert forall id | id in jobManager.jobs && !jobManager.jobs[id].Complete? ::
            id in JM.ActiveIds(jobManager.jobs);
      }
      closed := exit;
    }
  }
}
