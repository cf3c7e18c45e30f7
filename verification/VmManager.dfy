/** Control channels and the background task behind each launched VM. */
module VmManager {
  import opened Protocol

  datatype VmExitStatus = ExitSuccess | ExitFailure

  /** `exited`: the completion event is sent, the control channel not yet removed. */
  datatype Task = Task(jobId: Uuid, vm: VM, exited: bool)

  /** `task` only names the sender; the event itself carries the job and the status. */
  datatype Completion = Completion(task: nat, jobId: Uuid, status: VmExitStatus)

  datatype Vms = Vms(
    channels: map<Uuid, nat>,
    tasks: map<nat, Task>,
    launches: nat,
    completions: seq<Completion>)

  const EMPTY := Vms(map[], map[], 0, [])

  function Launch(v: Vms, id: Uuid, vm: VM): Vms {
    Vms(v.channels[id := v.launches], v.tasks[v.launches := Task(id, vm, false)], v.launches + 1, v.completions)
  }

  predicate CanExit(v: Vms, t: nat) {
    t in v.tasks && !v.tasks[t].exited
  }

  /** The VM stopped, or could not be created (a failure): either way one event is sent. */
  function Exit(v: Vms, t: nat, status: VmExitStatus): Vms
    requires CanExit(v, t)
  {
    v.(tasks := v.tasks[t := v.tasks[t].(exited := true)],
       completions := v.completions + [Completion(t, v.tasks[t].jobId, status)])
  }

  predicate CanCleanUp(v: Vms, t: nat) {
    t in v.tasks && v.tasks[t].exited
  }

  /** Removes the job's channel, whichever task registered it last. */
  function CleanUp(v: Vms, t: nat): Vms
    requires CanCleanUp(v, t)
  {
    v.(channels := v.channels - {v.tasks[t].jobId}, tasks := v.tasks - {t})
  }

  // ---------- One completion per launch ----------

  ghost predicate Completed(v: Vms, t: nat) {
    exists i | 0 <= i < |v.completions| :: v.completions[i].task == t
  }

  ghost predicate OneCompletionPerLaunch(v: Vms) {
    && (forall t | t in v.tasks :: t < v.launches)
    && (forall i | 0 <= i < |v.completions| :: v.completions[i].task < v.launches)
    && (forall i, j | 0 <= i < j < |v.completions| :: v.completions[i].task != v.completions[j].task)
    && (forall t | 0 <= t < v.launches :: Completed(v, t) <==> !CanExit(v, t))
  }

  lemma LaunchKeepsCompletions(v: Vms, id: Uuid, vm: VM)
    requires OneCompletionPerLaunch(v)
    ensures OneCompletionPerLaunch(Launch(v, id, vm))
  {
    var w := Launch(v, id, vm);
    forall t | 0 <= t < w.launches ensures Completed(w, t) <==> !CanExit(w, t) {
      if t < v.launches {
        assert Completed(v, t) <==> !CanExit(v, t);
      }
    }
  }

  lemma ExitKeepsCompletions(v: Vms, t: nat, status: VmExitStatus)
    requires OneCompletionPerLaunch(v) && CanExit(v, t)
    ensures OneCompletionPerLaunch(Exit(v, t, status))
  {
    var w := Exit(v, t, status);
    assert !Completed(v, t);
    forall u | 0 <= u < w.launches ensures Completed(w, u) <==> !CanExit(w, u) {
      assert Completed(v, u) <==> !CanExit(v, u);
      if u == t {
        assert w.completions[|v.completions|].task == t;
      } else if Completed(v, u) {
        var i :| 0 <= i < |v.completions| && v.completions[i].task == u;
        assert w.completions[i].task == u;
      }
    }
  }

  lemma CleanUpKeepsCompletions(v: Vms, t: nat)
    requires OneCompletionPerLaunch(v) && CanCleanUp(v, t)
    ensures OneCompletionPerLaunch(CleanUp(v, t))
  {
    var w := CleanUp(v, t);
    forall u | 0 <= u < w.launches ensures Completed(w, u) <==> !CanExit(w, u) {
      assert Completed(v, u) <==> !CanExit(v, u);
    }
  }

  /** The event of an ended VM, or of one that could not be created, carries its job and its status. */
  lemma ExitTells(v: Vms, t: nat, status: VmExitStatus)
    requires CanExit(v, t)
    ensures var w := Exit(v, t, status);
            && |w.completions| == |v.completions| + 1 && w.completions[..|v.completions|] == v.completions
            && w.completions[|v.completions|].jobId == v.tasks[t].jobId
            && w.completions[|v.completions|].status == status
            && !CanExit(w, t)
  {
  }

  // ---------- A registered channel means a task that has not cleaned up ----------

  ghost predicate ChannelsMatchTasks(v: Vms) {
    && (forall t | t in v.tasks :: t < v.launches)
    && (forall id | id in v.channels :: v.channels[id] in v.tasks && v.tasks[v.channels[id]].jobId == id)
    && (forall t | t in v.tasks :: v.tasks[t].jobId in v.channels && v.channels[v.tasks[t].jobId] == t)
  }

  lemma ChannelsKept(v: Vms)
    requires ChannelsMatchTasks(v)
    ensures forall id, vm | id !in v.channels :: ChannelsMatchTasks(Launch(v, id, vm))
    ensures forall t, s | CanExit(v, t) :: ChannelsMatchTasks(Exit(v, t, s))
    ensures forall t | CanCleanUp(v, t) :: ChannelsMatchTasks(CleanUp(v, t))
  {
  }

  /** A launch keeps the match exactly if the job has no channel, that is, no task that has not cleaned up. */
  lemma LaunchKeepsChannelsIff(v: Vms, id: Uuid, vm: VM)
    requires ChannelsMatchTasks(v)
    ensures ChannelsMatchTasks(Launch(v, id, vm)) <==> id !in v.channels
  {
    if id in v.channels {
      var w := Launch(v, id, vm);
      assert v.channels[id] in w.tasks && w.tasks[v.channels[id]].jobId == id && w.channels[id] != v.channels[id];
    }
  }

  /** Otherwise the first task's clean-up takes the second VM's channel, which then cannot be told to shut down;
      whether the first VM still runs or has already ended. */
  lemma RelaunchLosesChannel(v: Vms, id: Uuid, vm: VM, status: VmExitStatus)
    requires ChannelsMatchTasks(v) && id in v.channels
    ensures var t, w := v.channels[id], Launch(v, id, vm);
            var ended := if CanExit(w, t) then Exit(w, t, status) else w;
            var x := CleanUp(ended, t);
            id !in x.channels && CanExit(x, v.launches) && x.tasks[v.launches].jobId == id && !ChannelsMatchTasks(x)
  {
    var t, w := v.channels[id], Launch(v, id, vm);
    var x := CleanUp(if CanExit(w, t) then Exit(w, t, status) else w, t);
    assert v.launches in x.tasks && x.tasks[v.launches].jobId == id;
  }

  // ---------- The manager as the runner uses it ----------

  /** The shutdown commands sent per task, with one more for the task behind the job's channel. */
  function Told(sent: map<nat, nat>, channels: map<Uuid, nat>, id: Uuid): map<nat, nat> {
    if id in channels then sent[channels[id] := (if channels[id] in sent then sent[channels[id]] else 0) + 1] else sent
  }

  function Commands(sent: map<nat, nat>, t: nat): nat {
    if t in sent then sent[t] else 0
  }

  /** The task behind the job's channel gets one command more, and no other task gets one. */
  lemma ToldGetsOneMore(sent: map<nat, nat>, channels: map<Uuid, nat>, id: Uuid, t: nat)
    ensures Commands(Told(sent, channels, id), t)
         == Commands(sent, t) + if id in channels && channels[id] == t then 1 else 0
  {
  }

  datatype Shutdown = Sent | NotFound | SendFailed

  class VmManager {
    var controlChannels: map<Uuid, nat>
    var tasks: map<nat, Task>
    var launches: nat
    var completions: seq<Completion>
    var shutdownsSent: map<nat, nat>

    function View(): Vms
      reads this
    {
      Vms(controlChannels, tasks, launches, completions)
    }

    constructor ()
      ensures View() == EMPTY
    {
      controlChannels, tasks, launches, completions, shutdownsSent := map[], map[], 0, [], map[];
    }

    /** Has no failing path: everything that can fail happens in the task. */
    method LaunchVm(id: Uuid, vm: VM)
      modifies this
      ensures View() == Launch(old(View()), id, vm)
      ensures launches == old(launches) + 1 && old(launches) in tasks && tasks[old(launches)] == Task(id, vm, false)
      ensures id in controlChannels && controlChannels[id] == old(launches)
      ensures shutdownsSent == old(shutdownsSent)
    {
      controlChannels := controlChannels[id := launches];
      tasks := tasks[launches := Task(id, vm, false)];
      launches := launches + 1;
    }

    /** Sends the command down the job's channel. `ended` tells whether the task behind it ends between the
        look-up of the channel and the send, which then fails. */
    method ShutdownVm(id: Uuid, ended: bool) returns (outcome: Shutdown)
      modifies this
      ensures View() == old(View())
      ensures outcome == if id !in controlChannels then NotFound else if ended then SendFailed else Sent
      ensures outcome.Sent? ==>
                var t := controlChannels[id]; Commands(shutdownsSent, t) == Commands(old(shutdownsSent), t) + 1
      ensures shutdownsSent == if outcome.Sent?
              then Told(old(shutdownsSent), old(controlChannels), id) else old(shutdownsSent)
    {
      if id !in controlChannels {
        return NotFound;
      }
      if ended {
        return SendFailed;
      }
      var t := controlChannels[id];
      var sent := if t in shutdownsSent then shutdownsSent[t] else 0;
      shutdownsSent := shutdownsSent[t := sent + 1];
      outcome := Sent;
    }

    /** The tail of a VM task, from the VM's end to the removal of its channel. */
    method FinishTask(t: nat, status: VmExitStatus)
      requires CanExit(View(), t)
      modifies this
      ensures View() == CleanUp(Exit(old(View()), t, status), t)
      ensures completions == old(completions) + [Completion(t, old(tasks)[t].jobId, status)]
      ensures controlChannels == old(controlChannels) - {old(tasks)[t].jobId} && tasks == old(tasks) - {t}
      ensures shutdownsSent == old(shutdownsSent)
    {
      completions := completions + [Completion(t, tasks[t].jobId, status)];
      controlChannels := controlChannels - {tasks[t].jobId};
      tasks := tasks - {t};
    }
  }
}
