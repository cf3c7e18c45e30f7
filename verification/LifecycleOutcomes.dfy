/** What the steps of the lifecycle bring about: who is told what, and what the rows and processes are afterwards. */
module LifecycleOutcomes {
  import opened Protocol
  import opened JobTable
  import opened Runner
  import opened Lifecycle
  import opened LifecycleInvariant
  import opened LifecycleSteps
  import opened LifecycleTheorems
  import opened LifecycleProgress
  import JM = JobManager
  import VMs = VmManager

  // ---------- The backend's steps ----------

  /** A created job can be claimed, and everybody connected is owed a notice of it, if the creator sends notices. */
  lemma CreatedJobIsOffered(s: World, id: Uuid, vm: VM, notify: bool)
    requires Enabled(s, CreateJob(id, vm, notify))
    ensures var t := Apply(s, CreateJob(id, vm, notify));
            && Claimable(t.rows, id) && t.rows[id].platform == vm.platform
            && (vm.cpuCount < TWO_31 ==> ToVm(t.rows[id]) == vm)
            && (notify ==> forall c | c in s.registered :: Notice(id, ToVm(t.rows[id]), c) in t.notices)
  {
    RequestedVmSurvives(vm);
  }

  /** A retried job can be claimed and runs as the original did, whatever has become of that meanwhile. */
  lemma RetriedJobIsOffered(s: World, k: nat, newId: Uuid, notify: bool)
    requires Enabled(s, RetryCommit(k, newId, notify))
    ensures var t, original := Apply(s, RetryCommit(k, newId, notify)), s.retries[k].original;
            && Claimable(t.rows, newId) && ToVm(t.rows[newId]) == ToVm(original)
            && newId in QueueCandidates(t.rows, original.platform, {})
            && (notify ==> forall c | c in s.registered :: Notice(newId, ToVm(original), c) in t.notices)
  {
    JobTable.RetriedJobIsOffered(s.rows, s.retries[k].id, s.retries[k].original, newId);
  }

  /** A notice reaches its runner exactly if that is still connected and of the job's platform. */
  lemma NoticeIsSent(s: World, n: Notice, m: nat)
    requires Enabled(s, SendNotice(n, m))
    ensures var t := Apply(s, SendNotice(n, m));
            && n !in t.notices
            && (m in t.soup <==>
                  n.conn in s.registered && n.conn in s.platforms && s.platforms[n.conn] == n.vm.platform)
            && (m in t.soup ==> t.soup[m] == ToRunner(n.conn, NewJobAvailable(n.id, n.vm)))
  {
  }

  /** A look at the queue offers the oldest job that fits the runner, if there is one. */
  lemma QueueIsOffered(s: World, conn: Uuid, locked: set<Uuid>, m: nat)
    requires Enabled(s, CheckQueue(conn, locked, m))
    ensures var t := Apply(s, CheckQueue(conn, locked, m));
            && (m in t.soup ==> t.soup[m].ToRunner? && t.soup[m].conn == conn && t.soup[m].smsg.NewJobAvailable?
                                && var id := t.soup[m].smsg.id;
                                   id in s.rows && s.rows[id].status == Queued && id !in locked
                                   && s.rows[id].platform == s.platforms[conn] && t.soup[m].smsg.vm == ToVm(s.rows[id]))
            && forall id | id in s.rows && id !in locked && s.rows[id].status == Queued && s.rows[id].runnerId == None
                           && s.rows[id].platform == s.platforms[conn] ::
                 m in t.soup && t.soup[m].ToRunner? && t.soup[m].smsg.NewJobAvailable? && t.soup[m].smsg.id <= id
  {
  }

  /** A claim of a queued job wins it and is told so; any other claim changes nothing and hears nothing. */
  lemma ClaimIsAnswered(s: World, msg: nat, m: nat, id: Uuid, vm: VM)
    requires Enabled(s, ServerReceive(msg, m)) && s.soup[msg].cmsg == ClaimJob(id, vm)
    ensures var t, conn := Apply(s, ServerReceive(msg, m)), s.soup[msg].conn;
            if id in s.rows && s.rows[id].status == Queued
            then && id in t.rows && t.rows[id].status == Running && t.rows[id].runnerId == Some(conn)
                 && m in t.soup && t.soup[m] == ToRunner(conn, JobClaimed(id, vm))
            else t.rows == s.rows && m !in t.soup
  {
  }

  /** A report is written as it is, and its sender gets another look at the queue. */
  lemma ReportIsWritten(s: World, msg: nat, m: nat, id: Uuid, status: JobStatus)
    requires Enabled(s, ServerReceive(msg, m)) && s.soup[msg].cmsg == UpdateJobStatus(id, status)
    ensures var t := Apply(s, ServerReceive(msg, m));
            && (id in s.rows ==> id in t.rows && t.rows[id].status == status)
            && (forall other | other in s.rows && other != id :: other in t.rows && t.rows[other] == s.rows[other])
            && s.soup[msg].conn in t.owed
  {
  }

  /** A cancel of an unfinished job finishes its row, and tells its runner exactly if it has one that can be reached. */
  lemma CancelIsTold(s: World, id: Uuid, delivered: bool, m: nat)
    requires Enabled(s, CancelRequest(id, delivered, m))
    ensures var t := Apply(s, CancelRequest(id, delivered, m));
            if id in s.rows && (s.rows[id].status == Queued || s.rows[id].status == Running)
            then && id in t.rows && t.rows[id].status == Complete(Cancelled)
                 && (m in t.soup <==>
                       delivered && s.rows[id].runnerId.Some? && s.rows[id].runnerId.value in s.registered)
                 && (m in t.soup ==> t.soup[m] == ToRunner(s.rows[id].runnerId.value, JobCancelled(id)))
            else t.rows == s.rows && m !in t.soup
  {
  }

  /** An overdue job's runner is told, or the row is finished instead; never both. */
  lemma TimeoutIsToldOrWritten(s: World, id: Uuid, delivered: bool, m: nat)
    requires Enabled(s, ExpireJob(id, delivered, m)) && s.expired[id].runnerId.Some?
    ensures var t, runner := Apply(s, ExpireJob(id, delivered, m)), s.expired[id].runnerId.value;
            && id !in t.expired
            && (if runner in s.registered && delivered
                then t.rows == s.rows && m in t.soup && t.soup[m] == ToRunner(runner, JobTimedOut(id))
                else m !in t.soup && (id in s.rows ==> id in t.rows && t.rows[id].status == Complete(TimedOut)))
  {
  }

  /** A new connection has its platform on record, and gets a look at the queue. */
  lemma ConnectionGetsLook(s: World, p: nat, conn: Uuid)
    requires Enabled(s, Connect(p, conn))
    ensures var t := Apply(s, Connect(p, conn));
            && conn in t.registered && conn in t.owed && conn in t.platforms && t.platforms[conn] == s.procs[p].platform
            && p in t.procs && t.procs[p] == s.procs[p].(conn := Some(conn))
  {
  }

  /** A process with a connection can ask for a job, and the request gets it a look at the queue. */
  lemma RequestGetsLook(s: World, p: nat, m: nat, n: nat)
    requires Enabled(s, AskForJob(p, m)) && n !in s.soup && n != m
    requires s.procs[p].conn.value in s.registered && s.procs[p].conn.value !in s.owed
    ensures var t := Apply(s, AskForJob(p, m));
            Enabled(t, ServerReceive(m, n)) && s.procs[p].conn.value in Apply(t, ServerReceive(m, n)).owed
  {
  }

  /** A retry holds the row as it was read; the committed job runs with that configuration, and there is one. */
  lemma RetryReadCommits(s: World, id: Uuid, k: nat, newId: Uuid, notify: bool)
    requires Enabled(s, RetryRead(id, k)) && newId !in s.rows
    ensures var t := Apply(s, RetryRead(id, k));
            && t.rows == s.rows && Enabled(t, RetryCommit(k, newId, notify))
            && var u := Apply(t, RetryCommit(k, newId, notify));
               && u.rows == Retry(s.rows, id, s.rows[id], newId)
               && forall other, again :: !Enabled(u, RetryCommit(k, other, again))
  {
  }

  // ---------- Connections and processes that have ended ----------

  /** The connection existed and has ended. */
  predicate Gone(s: World, conn: Uuid) {
    conn in s.platforms && conn !in s.registered
  }

  /** No message for the runner at the other end is new. */
  ghost predicate NothingSent(s: World, t: World, conn: Uuid) {
    forall m | NewMessage(s, t, m) && t.soup[m].ToRunner? :: t.soup[m].conn != conn
  }

  lemma HandlersKeepGone(s: World, a: Action, conn: Uuid)
    requires Enabled(s, a) && (a.SendNotice? || a.CheckQueue? || a.ServerReceive?) && Gone(s, conn)
    ensures Gone(Apply(s, a), conn) && NothingSent(s, Apply(s, a), conn)
  {
    hide Claim, SetStatus, FindQueued, ToVm;
  }

  lemma NoticesKeepGone(s: World, a: Action, conn: Uuid)
    requires Enabled(s, a) && (a.CancelRequest? || a.ExpireJob?) && Gone(s, conn)
    ensures Gone(Apply(s, a), conn) && NothingSent(s, Apply(s, a), conn)
  {
    hide Cancel, SetStatus;
  }

  lemma BackendKeepsGone(s: World, a: Action, conn: Uuid)
    requires Enabled(s, a) && OfBackend(a) && Gone(s, conn)
    ensures Gone(Apply(s, a), conn) && NothingSent(s, Apply(s, a), conn)
  {
    if a.SendNotice? || a.CheckQueue? || a.ServerReceive? {
      HandlersKeepGone(s, a, conn);
    } else if a.CancelRequest? || a.ExpireJob? {
      NoticesKeepGone(s, a, conn);
    } else {
      hide DoSendNotice, DoCheckQueue, DoServerReceive, DoCancel, DoExpire, Broadcast, JobForVm, RunningIds;
    }
  }

  lemma OthersKeepGone(s: World, a: Action, conn: Uuid)
    requires Enabled(s, a) && !OfBackend(a) && Gone(s, conn)
    ensures Gone(Apply(s, a), conn)
  {
    hide RegisterClaimed, CompleteJob, LaunchClaimed, MarkRunning, HandleCompletion, ReadEvent, Report, NewProc;
  }

  lemma StepKeepsGone(s: World, a: Action, conn: Uuid)
    requires Enabled(s, a) && Gone(s, conn)
    ensures Gone(Apply(s, a), conn)
    ensures NothingSent(s, Apply(s, a), conn)
  {
    hide Apply, Enabled, Gone;
    if OfBackend(a) {
      BackendKeepsGone(s, a, conn);
    } else {
      OthersKeepGone(s, a, conn);
      if OfProcess(a) {
        ProcessFrame(s, a);
      } else {
        OtherFrame(s, a);
      }
    }
  }

  lemma {:induction false} GoneStaysGone(run: seq<Action>, i: nat, j: nat, conn: Uuid)
    requires Valid(run) && i <= j <= |run| && Valid(run[..i]) && Gone(After(run[..i]), conn)
    ensures Valid(run[..j]) && Gone(After(run[..j]), conn)
    decreases j
  {
    hide Inv, Enabled, Apply, Gone;
    PrefixValid(run, j);
    if i < j {
      GoneStaysGone(run, i, j - 1, conn);
      RunStep(run, j - 1);
      StepKeepsGone(After(run[..j - 1]), run[j - 1], conn);
    }
  }

  lemma DisconnectMakesGone(s: World, conn: Uuid)
    requires Inv(s) && Enabled(s, ServerDisconnect(conn))
    ensures Gone(Apply(s, ServerDisconnect(conn)), conn)
  {
  }

  lemma GoneIsIdle(s: World, a: Action, conn: Uuid)
    requires Enabled(s, a) && Gone(s, conn)
    ensures !(a.ServerDisconnect? && a.conn == conn) && !(a.CheckQueue? && a.conn == conn)
    ensures !(a.Connect? && a.conn == conn)
    ensures a.ServerReceive? ==> a.msg in s.soup && s.soup[a.msg].conn != conn
  {
  }

  /** Whatever happens after a disconnect, nothing more is read from that connection, looked up for it or sent to it,
      and its name is not used again. */
  lemma DisconnectIsFinal(run: seq<Action>, i: nat, j: nat, conn: Uuid)
    requires Valid(run) && i < j < |run| && run[i] == ServerDisconnect(conn)
    ensures Valid(run[..j]) && Valid(run[..j + 1])
    ensures !(run[j].CheckQueue? && run[j].conn == conn) && !(run[j].Connect? && run[j].conn == conn)
    ensures run[j].ServerReceive? ==>
              run[j].msg in After(run[..j]).soup && After(run[..j]).soup[run[j].msg].conn != conn
    ensures NothingSent(After(run[..j]), After(run[..j + 1]), conn)
  {
    hide Inv, Enabled, Apply, Gone;
    RunStep(run, i);
    DisconnectMakesGone(After(run[..i]), conn);
    GoneStaysGone(run, i + 1, j, conn);
    RunStep(run, j);
    GoneIsIdle(After(run[..j]), run[j], conn);
    StepKeepsGone(After(run[..j]), run[j], conn);
  }

  /** The process was started and its loop has ended: it was closed, or is no longer there. */
  predicate Over(s: World, p: nat) {
    p < s.started && (p in s.procs ==> s.procs[p].closed)
  }

  lemma ProgressKeepsOver(s: World, a: Action, p: nat)
    requires Enabled(s, a) && OfProcess(a) && Over(s, p)
    ensures Over(Apply(s, a), p)
  {
    hide DoStatusEvent, DoRunnerReceive, DoConnect;
  }

  lemma StepKeepsOver(s: World, a: Action, p: nat)
    requires Enabled(s, a) && Over(s, p)
    ensures Over(Apply(s, a), p)
  {
    Frame(s, a);
    if OfProcess(a) {
      ProgressKeepsOver(s, a, p);
    }
    hide Apply, Enabled, NewProc;
  }

  lemma {:induction false} OverStaysOver(run: seq<Action>, i: nat, j: nat, p: nat)
    requires Valid(run) && i <= j <= |run| && Valid(run[..i]) && Over(After(run[..i]), p)
    ensures Valid(run[..j]) && Over(After(run[..j]), p)
    decreases j
  {
    hide Inv, Enabled, Apply, Over;
    PrefixValid(run, j);
    if i < j {
      OverStaysOver(run, i, j - 1, p);
      RunStep(run, j - 1);
      StepKeepsOver(After(run[..j - 1]), run[j - 1], p);
    }
  }

  /** What only the loop of a running process does. */
  predicate OfLoop(a: Action, p: nat) {
    (a.Connect? || a.AskForJob? || a.RunnerReceive? || a.StatusEvent? || a.ShutdownSignal? || a.Close?) && a.p == p
  }

  lemma EndMakesOver(s: World, a: Action, p: nat)
    requires Inv(s) && Enabled(s, a) && (a == Close(p) || a == Crash(p))
    ensures Over(Apply(s, a), p)
    ensures p in Apply(s, a).procs <==> a.Close?
    ensures Apply(s, a).soup == s.soup && Apply(s, a).rows == s.rows && Apply(s, a).registered == s.registered
  {
  }

  lemma OverIsIdle(s: World, a: Action, p: nat)
    requires Enabled(s, a) && Over(s, p)
    ensures !OfLoop(a, p)
  {
  }

  /** After a process has closed or crashed its loop does nothing more: no connection, no message, no report. */
  lemma EndIsFinal(run: seq<Action>, i: nat, j: nat, p: nat)
    requires Valid(run) && i < j < |run| && (run[i] == Close(p) || run[i] == Crash(p))
    ensures !OfLoop(run[j], p)
  {
    hide Inv, Enabled, Apply, Over, OfLoop;
    RunStep(run, i);
    EndMakesOver(After(run[..i]), run[i], p);
    OverStaysOver(run, i + 1, j, p);
    RunStep(run, j);
    OverIsIdle(After(run[..j]), run[j], p);
  }

  // ---------- The runner's steps ----------

  /** An offer is claimed, for the VM it told, exactly if there is room. */
  lemma OfferIsClaimed(s: World, p: nat, msg: nat, canAllocate: bool, m: nat, id: Uuid, vm: VM)
    requires Enabled(s, RunnerReceive(p, msg, canAllocate, m)) && s.soup[msg].smsg == NewJobAvailable(id, vm)
    ensures var t := Apply(s, RunnerReceive(p, msg, canAllocate, m));
            && p in t.procs && t.procs[p] == HandleMessage(s.procs[p], NewJobAvailable(id, vm))
            && (m in t.soup <==> canAllocate)
            && (canAllocate ==> t.soup[m] == ToServer(s.soup[msg].conn, ClaimJob(id, vm)))
  {
  }

  /** A process that is told of a timeout or a cancellation has handled the message in one step. */
  lemma ToldIsHandled(s: World, p: nat, msg: nat, canAllocate: bool, m: nat)
    requires Enabled(s, RunnerReceive(p, msg, canAllocate, m))
    requires s.soup[msg].smsg.JobTimedOut? || s.soup[msg].smsg.JobCancelled?
    ensures var t := Apply(s, RunnerReceive(p, msg, canAllocate, m));
            p in t.procs && t.procs[p] == HandleMessage(s.procs[p], s.soup[msg].smsg)
  {
  }

  /** The three steps of a claimed job, with nothing in between, are the handling of its message. */
  lemma ClaimedIsHandled(s: World, p: nat, msg: nat, canAllocate: bool, m: nat, id: Uuid, vm: VM)
    requires Enabled(s, RunnerReceive(p, msg, canAllocate, m)) && s.soup[msg].smsg == JobClaimed(id, vm)
    ensures var t := Apply(s, RunnerReceive(p, msg, canAllocate, m));
            Enabled(t, LaunchVm(p)) && Enabled(Apply(t, LaunchVm(p)), SetRunning(p))
            && var u := Apply(Apply(t, LaunchVm(p)), SetRunning(p));
               p in u.procs && u.procs[p] == HandleMessage(s.procs[p], JobClaimed(id, vm))
  {
    hide HandleMessage, JM.Register, JM.Update, VMs.Launch, DoSendNotice, DoCheckQueue, DoServerReceive, DoStatusEvent;
    ClaimedInSteps(s.procs[p], id, vm);
  }

  lemma ClaimedInSteps(p: Proc, id: Uuid, vm: VM)
    ensures HandleMessage(p, JobClaimed(id, vm)) == MarkRunning(LaunchClaimed(RegisterClaimed(p, id, vm)))
  {
  }

  /** A completion that is read is reported with its own verdict while there is a connection. */
  lemma EventIsReported(s: World, p: nat, m: nat)
    requires Enabled(s, StatusEvent(p, m))
    ensures var t, event := Apply(s, StatusEvent(p, m)), s.procs[p].jm.log[s.procs[p].read];
            && p in t.procs && t.procs[p].read == s.procs[p].read + 1
            && (m in t.soup <==> event.status.Complete? && s.procs[p].conn.Some?)
            && (m in t.soup ==>
                  t.soup[m] == ToServer(s.procs[p].conn.value, UpdateJobStatus(event.jobId, event.status)))
            && forall k | NewMessage(s, t, k) :: k == m
  {
  }

  // ---------- Whose verdict a report carries ----------

  /** The job's VM has ended, its event has been read, and the verdict is that of the VM's exit status. */
  ghost predicate FromVm(p: Proc, id: Uuid, verdict: CompletionStatus) {
    exists i: nat :: i < p.handled && EndedWith(p, i, id, verdict)
  }

  predicate EndedWith(p: Proc, i: nat, id: Uuid, verdict: CompletionStatus) {
    && EndedAt(p, i, id)
    && match p.vms.completions[i].status
       case ExitSuccess => verdict == Success
       case ExitFailure => verdict == Failed
  }

  ghost predicate WasTold(run: seq<Action>, p: nat, id: Uuid) {
    exists k: nat :: k < |run| && ToldAt(run, k, p, id)
  }

  predicate Verdict(p: Proc, id: Uuid, verdict: CompletionStatus) {
    id in p.jm.jobs && p.jm.jobs[id] == Complete(verdict)
  }

  /** Events are never taken back. */
  predicate Later(p: Proc, q: Proc) {
    p.handled <= q.handled && p.vms.completions <= q.vms.completions
  }

  lemma LaterKeepsVerdict(p: Proc, q: Proc, id: Uuid, verdict: CompletionStatus)
    requires Later(p, q) && FromVm(p, id, verdict)
    ensures FromVm(q, id, verdict)
  {
    var i: nat :| i < p.handled && EndedWith(p, i, id, verdict);
    assert i < q.handled && EndedWith(q, i, id, verdict);
  }

  lemma UpdateVerdict(p: Proc, i: Uuid, status: CompletionStatus, id: Uuid, verdict: CompletionStatus)
    requires Verdict(CompleteJob(p, i, status), id, verdict)
    ensures Verdict(p, id, verdict) || (i == id && status == verdict)
  {
  }

  lemma RegisterVerdict(p: Proc, i: Uuid, vm: VM, id: Uuid, verdict: CompletionStatus)
    requires Verdict(RegisterClaimed(p, i, vm), id, verdict)
    ensures Verdict(p, id, verdict)
  {
  }

  lemma MessageVerdict(s: World, a: Action, id: Uuid, verdict: CompletionStatus)
    requires a.RunnerReceive? && a.p in s.procs
    requires Enabled(s, a) && a.p in Apply(s, a).procs && Verdict(Apply(s, a).procs[a.p], id, verdict)
    ensures Later(s.procs[a.p], Apply(s, a).procs[a.p])
    ensures Verdict(s.procs[a.p], id, verdict) || IsTold(s, a, a.p, id)
  {
    hide JM.Register, JM.Update, Verdict;
    match s.soup[a.msg].smsg
    case NewJobAvailable(_, _) =>
    case JobClaimed(i, vm) => RegisterVerdict(s.procs[a.p], i, vm, id, verdict);
    case JobTimedOut(i) => UpdateVerdict(s.procs[a.p], i, TimedOut, id, verdict);
    case JobCancelled(i) => UpdateVerdict(s.procs[a.p], i, Cancelled, id, verdict);
  }

  lemma EndGivesVerdict(p: Proc, id: Uuid, verdict: CompletionStatus)
    requires p.handled < |p.vms.completions| && Verdict(HandleCompletion(p), id, verdict)
    ensures Later(p, HandleCompletion(p))
    ensures Verdict(p, id, verdict) || FromVm(HandleCompletion(p), id, verdict)
  {
    if !Verdict(p, id, verdict) {
      assert EndedWith(HandleCompletion(p), p.handled, id, verdict);
    }
  }

  lemma ProgressVerdict(s: World, a: Action, id: Uuid, verdict: CompletionStatus)
    requires OfProcess(a) && !a.RunnerReceive? && a.p in s.procs
    requires Enabled(s, a) && a.p in Apply(s, a).procs && Verdict(Apply(s, a).procs[a.p], id, verdict)
    ensures Later(s.procs[a.p], Apply(s, a).procs[a.p])
    ensures Verdict(s.procs[a.p], id, verdict) || FromVm(Apply(s, a).procs[a.p], id, verdict)
  {
    hide DoConnect, DoStatusEvent, FromVm, HandleCompletion;
    if a.VmCompletion? {
      EndGivesVerdict(s.procs[a.p], id, verdict);
    }
  }

  lemma StepVerdict(s: World, a: Action, p: nat, id: Uuid, verdict: CompletionStatus)
    requires Enabled(s, a) && p in Apply(s, a).procs && Verdict(Apply(s, a).procs[p], id, verdict)
    ensures p in s.procs && Later(s.procs[p], Apply(s, a).procs[p])
    ensures Verdict(s.procs[p], id, verdict) || IsTold(s, a, p, id) || FromVm(Apply(s, a).procs[p], id, verdict)
  {
    Frame(s, a);
    hide Enabled, Apply, Happens, FromVm, IsTold;
    if OfProcess(a) && a.p == p {
      if a.RunnerReceive? {
        MessageVerdict(s, a, id, verdict);
      } else {
        ProgressVerdict(s, a, id, verdict);
      }
    }
  }

  lemma WasToldBefore(run: seq<Action>, p: nat, id: Uuid)
    requires run != [] && WasTold(run[..|run| - 1], p, id)
    ensures WasTold(run, p, id)
  {
    hide IsTold;
    var k: nat :| k < |run| - 1 && ToldAt(run[..|run| - 1], k, p, id);
    assert run[..|run| - 1][..k] == run[..k];
    assert ToldAt(run, k, p, id);
  }

  /** Over every run: a complete job whose process was never told of its cancellation or timeout has the verdict of
      its VM's exit status. */
  lemma {:induction false} VerdictsAreTrue(run: seq<Action>, p: nat, id: Uuid, verdict: CompletionStatus)
    requires Valid(run) && p in After(run).procs && Verdict(After(run).procs[p], id, verdict)
    ensures WasTold(run, p, id) || FromVm(After(run).procs[p], id, verdict)
  {
    hide Enabled, Apply, IsTold, FromVm, Verdict, Later;
    if run == [] {
      assert false;
    } else {
      var front, a := run[..|run| - 1], run[|run| - 1];
      StepVerdict(After(front), a, p, id, verdict);
      if Verdict(After(front).procs[p], id, verdict) {
        VerdictsAreTrue(front, p, id, verdict);
        if WasTold(front, p, id) {
          WasToldBefore(run, p, id);
        } else {
          LaterKeepsVerdict(After(front).procs[p], After(run).procs[p], id, verdict);
        }
      } else if IsTold(After(front), a, p, id) {
        assert ToldAt(run, |run| - 1, p, id);
      }
    }
  }

  lemma ReportIsStatus(s: World, a: Action, m: nat, id: Uuid)
    requires Inv(s) && Enabled(s, a) && NewMessage(s, Apply(s, a), m) && IsReport(Apply(s, a).soup[m], id)
    ensures a.StatusEvent? && a.p in s.procs && id in s.procs[a.p].jm.jobs
    ensures s.procs[a.p].jm.jobs[id] == Apply(s, a).soup[m].cmsg.status && s.procs[a.p].jm.jobs[id].Complete?
    ensures s.procs[a.p].conn == Some(Apply(s, a).soup[m].conn)
  {
    hide Inv, Happens, JM.Inv, Enabled, Apply;
    Frame(s, a);
    KnownProc(s, a.p);
    EventIsReported(s, a.p, a.m);
    JM.TerminalOnce(s.procs[a.p].jm, s.procs[a.p].read, s.procs[a.p].read, id);
  }

  /** The report carries the status its job has in the sending process's manager, which is the exit status of the
      job's VM unless the process was told of a cancellation or timeout before. */
  ghost predicate TrueReport(before: seq<Action>, p: nat, report: Envelope, id: Uuid) {
    && Valid(before) && p in After(before).procs && IsReport(report, id)
    && var proc := After(before).procs[p];
       && proc.conn == Some(report.conn)
       && id in proc.jm.jobs && proc.jm.jobs[id] == report.cmsg.status && report.cmsg.status.Complete?
       && (WasTold(before, p, id) || FromVm(proc, id, report.cmsg.status.completion))
  }

  lemma ReportsAreTrue(run: seq<Action>, k: nat, m: nat, id: Uuid)
    requires Valid(run) && k < |run| && Valid(run[..k]) && Valid(run[..k + 1])
    requires NewMessage(After(run[..k]), After(run[..k + 1]), m) && IsReport(After(run[..k + 1]).soup[m], id)
    ensures run[k].StatusEvent? && TrueReport(run[..k], run[k].p, After(run[..k + 1]).soup[m], id)
  {
    hide Inv, Enabled, Apply, WasTold, FromVm;
    RunStep(run, k);
    ReportIsStatus(After(run[..k]), run[k], m, id);
    VerdictsAreTrue(run[..k], run[k].p, id, After(run[..k + 1]).soup[m].cmsg.status.completion);
  }
}
