/** What the lifecycle guarantees over whole runs. */
module LifecycleTheorems {
  import opened Protocol
  import opened JobTable
  import opened Runner
  import opened Lifecycle
  import opened LifecycleInvariant
  import opened LifecycleSteps
  import JM = JobManager
  import VMs = VmManager

  // ---------- The table only moves forward ----------

  lemma ServerReceiveGrows(s: World, msg: nat, m: nat)
    requires Inv(s) && msg in s.soup && s.soup[msg].ToServer?
    ensures Grows(s, DoServerReceive(Take(s, msg), s.soup[msg].conn, s.soup[msg].cmsg, m))
  {
    Parts(s);
    KnownEnvelope(s, msg);
    hide Inv, BackendOk, SoupOk, ProcsOk, TokensOk, TableOk, Evolves;
    var e := s.soup[msg];
    match e.cmsg {
      case ClaimJob(id, _) => ClaimEvolves(s.rows, s.platforms, id, e.conn);
      case UpdateJobStatus(id, status) => SetCompleteEvolves(s.rows, s.platforms, id, status.completion);
      case RequestJob =>
    }
  }

  predicate WritesRows(a: Action) {
    a.CreateJob? || a.ServerReceive? || a.CancelRequest? || a.ExpireJob? || a.RetryCommit?
  }

  lemma EvolvesReflexive(rows: Rows)
    ensures Evolves(rows, rows)
  {
  }

  lemma OtherStepsKeepRows(s: World, a: Action)
    requires Enabled(s, a) && !WritesRows(a)
    ensures Grows(s, Apply(s, a))
  {
    hide DoSendNotice, DoCheckQueue, DoServerReceive, DoCancel, DoExpire;
    hide DoRetry, DoConnect, DoRunnerReceive, DoStatusEvent;
    hide LaunchClaimed, MarkRunning, HandleCompletion, NewProc, JobForVm, Evolves;
    EvolvesReflexive(s.rows);
    if a.Connect? {
      assert Apply(s, a).platforms == s.platforms[a.conn := s.procs[a.p].platform];
    } else {
      assert Apply(s, a).platforms == s.platforms;
    }
    assert Apply(s, a).rows == s.rows;
    hide Apply;
  }

  lemma RetryCommitGrows(s: World, k: nat, newId: Uuid, notify: bool)
    requires Inv(s) && k in s.retries && s.retries[k].id in s.rows && newId !in s.rows
    ensures Grows(s, DoRetry(s, k, newId, notify))
  {
    Parts(s);
    assert RetryOk(s.rows, s.retries[k]);
    hide Inv, BackendOk, SoupOk, ProcsOk, TokensOk, TableOk, Evolves, RetryOk;
    RetryEvolves(s.rows, s.platforms, s.retries[k], newId);
  }

  lemma CompletionGrows(s: World, t: World, id: Uuid, c: CompletionStatus)
    requires Inv(s) && t.platforms == s.platforms
    requires t.rows == s.rows || t.rows == SetStatus(s.rows, id, Complete(c))
    ensures Grows(s, t)
  {
    Parts(s);
    hide Inv, BackendOk, SoupOk, ProcsOk, TokensOk, TableOk, Evolves, SetStatus;
    SetCompleteEvolves(s.rows, s.platforms, id, c);
  }

  lemma CreateGrows(s: World, t: World, id: Uuid, vm: VM)
    requires Inv(s) && id !in s.rows && t.platforms == s.platforms && t.rows == s.rows[id := JobForVm(vm)]
    ensures Grows(s, t)
  {
    Parts(s);
    hide Inv, BackendOk, SoupOk, ProcsOk, TokensOk, TableOk, Evolves, JobForVm;
    InsertEvolves(s.rows, s.platforms, id, vm);
  }

  lemma StepGrows(s: World, a: Action)
    requires Inv(s) && Enabled(s, a)
    ensures Grows(s, Apply(s, a))
  {
    hide Inv, Grows, DoServerReceive, DoCancel, DoExpire, DoRetry, JobForVm, SetStatus, Retry;
    match a
    case CreateJob(id, vm, _) => CreateGrows(s, Apply(s, a), id, vm);
    case CancelRequest(id, _, _) => CompletionGrows(s, Apply(s, a), id, Cancelled);
    case ExpireJob(id, _, _) => CompletionGrows(s, Apply(s, a), id, TimedOut);
    case RetryCommit(k, newId, notify) => RetryCommitGrows(s, k, newId, notify);
    case ServerReceive(msg, m) => ServerReceiveGrows(s, msg, m);
    case _ => OtherStepsKeepRows(s, a);
  }

  lemma GrowsTransitive(s: World, t: World, u: World)
    requires Grows(s, t) && Grows(t, u)
    ensures Grows(s, u)
  {
  }

  /** The state before step i of a valid run, and the step that leads to the next one. */
  lemma RunStep(run: seq<Action>, i: nat)
    requires Valid(run) && i < |run|
    ensures Valid(run[..i]) && Valid(run[..i + 1])
    ensures Inv(After(run[..i])) && Enabled(After(run[..i]), run[i])
    ensures After(run[..i + 1]) == Apply(After(run[..i]), run[i])
  {
    hide Inv, Enabled, Apply;
    PrefixValid(run, i);
    PrefixValid(run, i + 1);
    ReachableInv(run[..i]);
    var r := run[..i + 1];
    assert r[..|r| - 1] == run[..i];
  }

  lemma {:induction false} RunGrows(run: seq<Action>, i: nat, j: nat)
    requires Valid(run) && i <= j <= |run|
    ensures Valid(run[..i]) && Valid(run[..j]) && Grows(After(run[..i]), After(run[..j]))
    decreases j - i
  {
    hide Inv, Enabled, Apply;
    PrefixValid(run, i);
    if i == j {
    } else {
      RunGrows(run, i, j - 1);
      RunStep(run, j - 1);
      StepGrows(After(run[..j - 1]), run[j - 1]);
      GrowsTransitive(After(run[..i]), After(run[..j - 1]), After(run[..j]));
    }
  }

  /** Rank never decreases, the runner is written at most once, the configuration never changes;
      a queued job has no runner and a running one has one. */
  lemma RowsMoveForward(run: seq<Action>, i: nat, j: nat, id: Uuid)
    requires Valid(run) && i <= j <= |run|
    requires Valid(run[..i]) && id in After(run[..i]).rows
    ensures Valid(run[..j]) && id in After(run[..j]).rows
    ensures var a, b := After(run[..i]).rows[id], After(run[..j]).rows[id];
            && Rank(a.status) <= Rank(b.status)
            && (a.runnerId.Some? ==> b.runnerId == a.runnerId)
            && SameConfig(a, b)
            && (b.status.Queued? ==> b.runnerId.None?)
            && (b.status.Running? ==> b.runnerId.Some?)
  {
    RunGrows(run, i, j);
    ReachableInv(run[..j]);
    assert AssignmentOk(After(run[..j]).rows[id]);
  }

  /** Neither the null filter of the queue query nor the timeout checker's `Some` test excludes anything. */
  lemma FiltersExcludeNothing(run: seq<Action>, platform: Platform, locked: set<Uuid>)
    requires Valid(run)
    ensures var s := After(run);
            && QueueCandidates(s.rows, platform, locked)
               == (set id | id in s.rows && id !in locked && s.rows[id].status.Queued?
                       && s.rows[id].platform == platform)
            && forall id | id in s.expired :: s.expired[id].runnerId.Some?
  {
    ReachableInv(run);
    var s := After(run);
    NullFilterIsRedundant(s.rows, platform, locked);
    forall id | id in s.expired ensures s.expired[id].runnerId.Some? {
      assert ExpiredOk(s.rows, id, s.expired[id]);
    }
  }

  /** Retry links in every reachable table, repeated and concurrent retries included. */
  lemma RetriesFormForest(run: seq<Action>, id: Uuid)
    requires Valid(run) && id in After(run).rows
    ensures var rows := After(run).rows;
            && Forest(rows)
            && (forall n: nat | n > 0 :: Ancestor(rows, id, n) != Some(id))
            && (rows[id].retriedJobId.Some? ==>
                  var k := rows[id].retriedJobId.value; k in rows && rows[k].previousJobId == Some(id))
            && (rows[id].retriedJobId.None? <==> forall k | k in rows :: rows[k].previousJobId != Some(id))
  {
    ReachableInv(run);
    RetryChains(After(run).rows, id);
    RetriedIsNullIffNeverRetried(After(run).rows, id);
  }

  // ---------- Things that happen at most once to a job ----------

  datatype Milestone = ClaimWon | JobRegistered | VmLaunched | ReportWritten | CancelWon | TimeoutWritten

  predicate Happens(s: World, a: Action, k: Milestone, id: Uuid) {
    && Enabled(s, a)
    && match k
    case ClaimWon =>
      a.ServerReceive? && s.soup[a.msg].cmsg.ClaimJob? && s.soup[a.msg].cmsg.id == id && Claimable(s.rows, id)
    case JobRegistered =>
      a.RunnerReceive? && s.soup[a.msg].smsg.JobClaimed? && s.soup[a.msg].smsg.id == id
    case VmLaunched => a.LaunchVm? && s.procs[a.p].phase.id == id
    case ReportWritten =>
      a.ServerReceive? && s.soup[a.msg].cmsg.UpdateJobStatus? && s.soup[a.msg].cmsg.id == id
    case CancelWon => a.CancelRequest? && a.id == id && Cancellable(s.rows, id)
    case TimeoutWritten =>
      a.ExpireJob? && a.id == id && s.expired[id].runnerId.Some?
      && !(s.expired[id].runnerId.value in s.registered && a.delivered)
  }

  ghost predicate NobodyAboutToLaunch(procs: map<nat, Proc>, id: Uuid) {
    forall p | p in procs :: !(procs[p].phase.Registered? && procs[p].phase.id == id)
  }

  /** The milestone is behind the job for good. */
  ghost predicate Spent(s: World, k: Milestone, id: Uuid) {
    && Taken(s.rows, id)
    && match k
       case ClaimWon => true
       case JobRegistered => NoTicket(s.soup, id)
       case VmLaunched => NoTicket(s.soup, id) && NobodyAboutToLaunch(s.procs, id)
       case ReportWritten => NoTicket(s.soup, id) && NoReport(s.soup, id) && AllQuiet(s.procs, id)
       case CancelWon => s.rows[id].status.Complete?
       case TimeoutWritten => s.rows[id].status.Complete? && id !in s.expired
  }

  lemma SpentBlocks(s: World, a: Action, k: Milestone, id: Uuid)
    requires Enabled(s, a) && Spent(s, k, id)
    ensures !Happens(s, a, k, id)
  {
  }

  // ---------- What each group of steps leaves alone ----------

  predicate NewMessage(s: World, t: World, k: nat) {
    k in t.soup && !(k in s.soup && t.soup[k] == s.soup[k])
  }

  lemma BackendFrame(s: World, a: Action)
    requires Enabled(s, a) && OfBackend(a)
    ensures var t := Apply(s, a);
            && t.procs == s.procs && t.started == s.started && t.platforms == s.platforms
            && (!a.ScanExpired? ==> t.expired.Keys <= s.expired.Keys)
            && (a.ScanExpired? ==> t.expired.Keys <= RunningIds(s.rows))
            && forall k | NewMessage(s, t, k) ::
                 t.soup[k].ToRunner? && (t.soup[k].smsg.JobClaimed? ==> Happens(s, a, ClaimWon, t.soup[k].smsg.id))
  {
    hide DoSendNotice, DoCheckQueue, DoServerReceive, DoCancel, DoExpire, DoRetry, JobForVm;
  }

  lemma ProcessFrame(s: World, a: Action)
    requires Enabled(s, a) && OfProcess(a)
    ensures var t := Apply(s, a);
            && t.rows == s.rows && t.expired == s.expired && t.started == s.started
            && a.p in s.procs && a.p in t.procs && t.procs == s.procs[a.p := t.procs[a.p]]
            && forall k | NewMessage(s, t, k) ::
                 && t.soup[k].ToServer?
                 && (t.soup[k].cmsg.UpdateJobStatus? ==>
                       a.StatusEvent? && JM.Terminal(s.procs[a.p].jm.log[s.procs[a.p].read], t.soup[k].cmsg.id))
  {
    hide DoConnect, DoRunnerReceive, DoStatusEvent, LaunchClaimed, MarkRunning, HandleCompletion;
  }

  lemma OtherFrame(s: World, a: Action)
    requires Enabled(s, a) && !OfBackend(a) && !OfProcess(a)
    ensures var t := Apply(s, a);
            && t.rows == s.rows && t.expired == s.expired && t.platforms == s.platforms && t.started >= s.started
            && (forall p | p in t.procs ::
                  (p in s.procs && t.procs[p] == s.procs[p])
                  || (a.StartRunner? && p == s.started && t.procs[p] == NewProc(a.platform)))
            && forall k | NewMessage(s, t, k) :: t.soup[k].ToServer? && t.soup[k].cmsg.RequestJob?
  {
    hide NewProc;
  }

  /** What all steps have in common. */
  lemma Frame(s: World, a: Action)
    requires Enabled(s, a)
    ensures var t := Apply(s, a);
            && t.started >= s.started
            && (forall id | id in t.expired && id !in s.expired :: id in RunningIds(s.rows))
            && (forall p | p in t.procs && !(OfProcess(a) && a.p == p) ::
                  (p in s.procs && t.procs[p] == s.procs[p])
                  || (a.StartRunner? && p == s.started && t.procs[p] == NewProc(a.platform)))
            && (OfProcess(a) ==> a.p in s.procs)
            && (forall k, id | NewMessage(s, t, k) && IsTicket(t.soup[k], id) :: Happens(s, a, ClaimWon, id))
            && (forall k, id | NewMessage(s, t, k) && IsReport(t.soup[k], id) ::
                  && a.StatusEvent? && a.p in s.procs && s.procs[a.p].read < |s.procs[a.p].jm.log|
                  && var event := s.procs[a.p].jm.log[s.procs[a.p].read];
                     event.jobId == id && event.status.Complete?)
  {
    if OfBackend(a) {
      BackendFrame(s, a);
    } else if OfProcess(a) {
      ProcessFrame(s, a);
    } else {
      OtherFrame(s, a);
    }
    assert a.StatusEvent? ==> s.procs[a.p].read < |s.procs[a.p].jm.log|;
    hide Apply, Enabled, Happens, NewProc;
  }

  /** A claim's answer is only ever posted by the claim that won the row. */
  lemma TicketsComeFromClaims(s: World, a: Action, m: nat, id: Uuid)
    requires Enabled(s, a)
    requires m in Apply(s, a).soup && IsTicket(Apply(s, a).soup[m], id)
    ensures (m in s.soup && IsTicket(s.soup[m], id)) || Happens(s, a, ClaimWon, id)
  {
    hide Apply, Enabled, Happens;
    Frame(s, a);
    assert NewMessage(s, Apply(s, a), m) || (m in s.soup && Apply(s, a).soup[m] == s.soup[m]);
  }

  /** A report is only posted for a terminal event that was still unread. */
  lemma ReportsComeFromEvents(s: World, a: Action, m: nat, id: Uuid)
    requires Enabled(s, a)
    requires m in Apply(s, a).soup && IsReport(Apply(s, a).soup[m], id)
    ensures || (m in s.soup && IsReport(s.soup[m], id))
            || (a.StatusEvent? && JM.Terminal(s.procs[a.p].jm.log[s.procs[a.p].read], id))
  {
    hide Apply, Happens;
    Frame(s, a);
    hide Enabled;
    assert NewMessage(s, Apply(s, a), m) || (m in s.soup && Apply(s, a).soup[m] == s.soup[m]);
  }

  lemma OtherProcsStay(s: World, a: Action, p: nat)
    requires Enabled(s, a) && p in Apply(s, a).procs
    requires !OfProcess(a) || a.p != p
    ensures (p in s.procs && Apply(s, a).procs[p] == s.procs[p])
         || (a.StartRunner? && p == s.started && Apply(s, a).procs[p] == NewProc(a.platform))
  {
    hide Apply, Enabled, Happens, NewProc;
    Frame(s, a);
  }

  lemma MessageKeepsQuiet(s: World, a: Action, id: Uuid)
    requires Enabled(s, a) && a.RunnerReceive? && Quiet(s.procs[a.p], id)
    requires !Happens(s, a, JobRegistered, id)
    ensures a.p in Apply(s, a).procs && Quiet(Apply(s, a).procs[a.p], id)
  {
    var q, r := s.procs[a.p], Apply(s, a).procs[a.p];
    hide Quiet;
    match s.soup[a.msg].smsg
    case NewJobAvailable(_, _) =>
    case JobClaimed(i, _) => RegisterOtherQuiet(q, r, i, id);
    case JobTimedOut(i) => CalmUpdate(q, r, i, Complete(TimedOut));
    case JobCancelled(i) => CalmUpdate(q, r, i, Complete(Cancelled));
  }

  lemma ProgressKeepsQuiet(s: World, a: Action, id: Uuid)
    requires Enabled(s, a) && OfProcess(a) && !a.RunnerReceive? && Quiet(s.procs[a.p], id)
    ensures a.p in Apply(s, a).procs && Quiet(Apply(s, a).procs[a.p], id)
  {
    var q, r := s.procs[a.p], Apply(s, a).procs[a.p];
    hide Quiet;
    if a.SetRunning? {
      CalmUpdate(q, r, q.phase.id, Running);
    } else if a.VmCompletion? {
      var c := q.vms.completions[q.handled];
      CalmUpdate(q, r, c.jobId, Complete(CompletionOf(c.status)));
    } else {
      CalmSame(q, r);
    }
  }

  lemma QuietStays(s: World, a: Action, id: Uuid)
    requires Enabled(s, a) && AllQuiet(s.procs, id) && !Happens(s, a, JobRegistered, id)
    ensures AllQuiet(Apply(s, a).procs, id)
  {
    forall p | p in Apply(s, a).procs ensures Quiet(Apply(s, a).procs[p], id) {
      if OfProcess(a) && a.p == p {
        assert Quiet(s.procs[p], id);
        hide Apply, Happens;
        if a.RunnerReceive? {
          MessageKeepsQuiet(s, a, id);
        } else {
          ProgressKeepsQuiet(s, a, id);
        }
      } else {
        hide Apply, Enabled, Happens;
        OtherProcsStay(s, a, p);
      }
    }
  }

  lemma NoLaunchFromElsewhere(s: World, a: Action, id: Uuid)
    requires Enabled(s, a) && OfProcess(a) && !Happens(s, a, JobRegistered, id)
    requires !(s.procs[a.p].phase.Registered? && s.procs[a.p].phase.id == id)
    ensures a.p in Apply(s, a).procs
    ensures !(Apply(s, a).procs[a.p].phase.Registered? && Apply(s, a).procs[a.p].phase.id == id)
  {
    hide DoSendNotice, DoCheckQueue, DoServerReceive, DoCancel, DoExpire, DoRetry, DoConnect, DoStatusEvent;
    hide JM.Register, JM.Update, VMs.Launch, VMs.Exit, VMs.CleanUp;
  }

  lemma NobodyElseWillLaunch(s: World, a: Action, id: Uuid)
    requires Enabled(s, a) && NobodyAboutToLaunch(s.procs, id) && !Happens(s, a, JobRegistered, id)
    ensures NobodyAboutToLaunch(Apply(s, a).procs, id)
  {
    forall p | p in Apply(s, a).procs
      ensures !(Apply(s, a).procs[p].phase.Registered? && Apply(s, a).procs[p].phase.id == id) {
      if OfProcess(a) && a.p == p {
        assert p in s.procs;
        hide Apply, Happens;
        NoLaunchFromElsewhere(s, a, id);
      } else {
        hide Apply, Enabled, Happens;
        OtherProcsStay(s, a, p);
      }
    }
  }

  // ---------- Each milestone is passed at most once ----------

  /** A ticket is present while a claim's answer is on its way, and only one. */
  lemma TakingTheTicket(s: World, msg: nat, id: Uuid)
    requires TokensOk(s.procs, s.soup) && msg in s.soup && IsTicket(s.soup[msg], id)
    ensures NoTicket(s.soup - {msg}, id)
  {
  }

  lemma TakingTheReport(s: World, msg: nat, id: Uuid)
    requires TokensOk(s.procs, s.soup) && msg in s.soup && IsReport(s.soup[msg], id)
    ensures NoReport(s.soup - {msg}, id) && AllQuiet(s.procs, id) && NoTicket(s.soup, id)
  {
    forall m | m in s.soup ensures !IsTicket(s.soup[m], id) {
      assert IsTicket(s.soup[m], id) ==> NoReport(s.soup, id);
    }
  }

  lemma ClaimSpends(s: World, a: Action, id: Uuid)
    requires Enabled(s, a) && Happens(s, a, ClaimWon, id)
    ensures Spent(Apply(s, a), ClaimWon, id)
  {
  }

  lemma RegistrationSpends(s: World, a: Action, id: Uuid)
    requires Inv(s) && Enabled(s, a) && Happens(s, a, JobRegistered, id)
    ensures Spent(Apply(s, a), JobRegistered, id)
  {
    hide Inv, BackendOk, SoupOk, ProcsOk, TokensOk, TableOk, NoTicket, JM.Register;
    hide DoSendNotice, DoCheckQueue, DoServerReceive, DoCancel, DoExpire, DoRetry, DoConnect, DoStatusEvent;
    hide LaunchClaimed, MarkRunning, HandleCompletion, NewProc, JobForVm;
    Parts(s);
    KnownEnvelope(s, a.msg);
    TakingTheTicket(s, a.msg, id);
  }

  /** Who is about to launch is the only one that knows the job. */
  lemma LauncherIsAlone(s: World, p: nat, id: Uuid)
    requires Inv(s) && p in s.procs && s.procs[p].phase.Registered? && s.procs[p].phase.id == id
    ensures Taken(s.rows, id) && NoTicket(s.soup, id)
    ensures forall q | q in s.procs && q != p :: !(s.procs[q].phase.Registered? && s.procs[q].phase.id == id)
  {
    hide Inv, BackendOk, SoupOk, TableOk, LocalOk;
    Parts(s);
    KnownProc(s, p);
    assert Knows(s.procs[p], id) && Taken(s.rows, id);
    forall m | m in s.soup ensures !IsTicket(s.soup[m], id) {
      assert IsTicket(s.soup[m], id) ==> NobodyKnows(s.procs, id);
    }
    forall q | q in s.procs && q != p ensures !(s.procs[q].phase.Registered? && s.procs[q].phase.id == id) {
      KnownProc(s, q);
      assert !Knows(s.procs[q], id);
    }
  }

  lemma LaunchSpends(s: World, a: Action, id: Uuid)
    requires Inv(s) && Enabled(s, a) && Happens(s, a, VmLaunched, id)
    ensures Spent(Apply(s, a), VmLaunched, id)
  {
    hide Inv, Taken, NoTicket, MarkRunning, HandleCompletion, NewProc, JobForVm, VMs.Launch;
    hide DoSendNotice, DoCheckQueue, DoServerReceive, DoCancel, DoExpire;
    hide DoRetry, DoConnect, DoRunnerReceive, DoStatusEvent;
    LauncherIsAlone(s, a.p, id);
  }

  lemma ReportSpends(s: World, a: Action, id: Uuid)
    requires Inv(s) && Enabled(s, a) && Happens(s, a, ReportWritten, id)
    ensures Spent(Apply(s, a), ReportWritten, id)
  {
    hide Inv, BackendOk, SoupOk, ProcsOk, TokensOk, TableOk, Quiet, AllQuiet;
    hide DoSendNotice, DoCheckQueue, DoCancel, DoExpire, DoRetry, DoConnect, DoRunnerReceive, DoStatusEvent;
    hide LaunchClaimed, MarkRunning, HandleCompletion, NewProc, JobForVm;
    Parts(s);
    KnownEnvelope(s, a.msg);
    TakingTheReport(s, a.msg, id);
  }

  lemma KnownExpired(s: World, id: Uuid)
    requires Inv(s) && id in s.expired
    ensures ExpiredOk(s.rows, id, s.expired[id])
  {
    hide SoupOk, ProcsOk, TokensOk, TableOk, ExpiredOk;
  }

  lemma TimeoutSpends(s: World, a: Action, id: Uuid)
    requires Inv(s) && Enabled(s, a) && Happens(s, a, TimeoutWritten, id)
    ensures Spent(Apply(s, a), TimeoutWritten, id)
  {
    hide Inv;
    hide DoSendNotice, DoCheckQueue, DoServerReceive, DoCancel, DoRetry, DoConnect, DoRunnerReceive, DoStatusEvent;
    hide LaunchClaimed, MarkRunning, HandleCompletion, NewProc, JobForVm;
    KnownExpired(s, id);
  }

  lemma CancelSpends(s: World, a: Action, id: Uuid)
    requires Enabled(s, a) && Happens(s, a, CancelWon, id)
    ensures Spent(Apply(s, a), CancelWon, id)
  {
  }

  lemma HappeningSpends(s: World, a: Action, k: Milestone, id: Uuid)
    requires Inv(s) && Enabled(s, a) && Happens(s, a, k, id)
    ensures Spent(Apply(s, a), k, id)
  {
    hide Inv, Enabled, Apply, Spent;
    match k
    case ClaimWon => ClaimSpends(s, a, id);
    case JobRegistered => RegistrationSpends(s, a, id);
    case VmLaunched => LaunchSpends(s, a, id);
    case ReportWritten => ReportSpends(s, a, id);
    case CancelWon => CancelSpends(s, a, id);
    case TimeoutWritten => TimeoutSpends(s, a, id);
  }

  lemma TicketStaysGone(s: World, a: Action, id: Uuid)
    requires Enabled(s, a) && Taken(s.rows, id) && NoTicket(s.soup, id)
    ensures NoTicket(Apply(s, a).soup, id)
  {
    hide Apply, Enabled;
    forall m | m in Apply(s, a).soup ensures !IsTicket(Apply(s, a).soup[m], id) {
      if IsTicket(Apply(s, a).soup[m], id) {
        TicketsComeFromClaims(s, a, m, id);
      }
    }
  }

  lemma ReportStaysGone(s: World, a: Action, id: Uuid)
    requires Enabled(s, a) && NoReport(s.soup, id) && AllQuiet(s.procs, id)
    ensures NoReport(Apply(s, a).soup, id)
  {
    forall m | m in Apply(s, a).soup ensures !IsReport(Apply(s, a).soup[m], id) {
      if IsReport(Apply(s, a).soup[m], id) {
        if a.StatusEvent? {
          assert Quiet(s.procs[a.p], id);
        }
        hide Apply, Enabled;
        ReportsComeFromEvents(s, a, m, id);
      }
    }
  }

  /** The timeout checker only reads running rows. */
  lemma FinishedStaysUnread(s: World, a: Action, id: Uuid)
    requires Enabled(s, a) && Taken(s.rows, id) && s.rows[id].status.Complete? && id !in s.expired
    ensures id !in Apply(s, a).expired
  {
    hide Apply, Enabled, Happens, NewProc;
    Frame(s, a);
  }

  lemma RowStays(s: World, t: World, id: Uuid)
    requires Grows(s, t) && Taken(s.rows, id)
    ensures Taken(t.rows, id)
    ensures s.rows[id].status.Complete? ==> t.rows[id].status.Complete?
  {
  }

  lemma SpentStays(s: World, a: Action, k: Milestone, id: Uuid)
    requires Inv(s) && Enabled(s, a) && Spent(s, k, id)
    ensures Spent(Apply(s, a), k, id)
  {
    hide Inv, Enabled, Apply, Happens, NoTicket, NoReport, AllQuiet, NobodyAboutToLaunch, Grows, Taken;
    if k == VmLaunched || k == ReportWritten {
      SpentBlocks(s, a, JobRegistered, id);
    }
    StepGrows(s, a);
    RowStays(s, Apply(s, a), id);
    match k
    case ClaimWon =>
    case JobRegistered => TicketStaysGone(s, a, id);
    case VmLaunched =>
      TicketStaysGone(s, a, id);
      NobodyElseWillLaunch(s, a, id);
    case ReportWritten =>
      TicketStaysGone(s, a, id);
      ReportStaysGone(s, a, id);
      QuietStays(s, a, id);
    case CancelWon =>
    case TimeoutWritten => FinishedStaysUnread(s, a, id);
  }

  // ---------- Whole runs ----------

  /** Step i of the run passes milestone k of the job. */
  ghost predicate At(run: seq<Action>, i: nat, k: Milestone, id: Uuid)
    requires i < |run|
  {
    Valid(run[..i]) && Happens(After(run[..i]), run[i], k, id)
  }

  lemma {:induction false} SpentEverAfter(run: seq<Action>, i: nat, j: nat, k: Milestone, id: Uuid)
    requires Valid(run) && i < j <= |run| && At(run, i, k, id)
    ensures Valid(run[..j]) && Spent(After(run[..j]), k, id)
    decreases j
  {
    hide Inv, Enabled, Apply, Spent, Happens;
    PrefixValid(run, j);
    RunStep(run, j - 1);
    if j == i + 1 {
      HappeningSpends(After(run[..i]), run[i], k, id);
    } else {
      SpentEverAfter(run, i, j - 1, k, id);
      SpentStays(After(run[..j - 1]), run[j - 1], k, id);
    }
  }

  /** A job is claimed, registered, launched, reported, cancelled and timed out by the backend at most once each,
      over every interleaving. */
  lemma AtMostOnce(run: seq<Action>, i: nat, j: nat, k: Milestone, id: Uuid)
    requires Valid(run) && i < |run| && j < |run| && At(run, i, k, id) && At(run, j, k, id)
    ensures i == j
  {
    hide Inv, Enabled, Apply, Spent, Happens;
    if i != j {
      var a, b := if i < j then i else j, if i < j then j else i;
      SpentEverAfter(run, a, b, k, id);
      RunStep(run, b);
      SpentBlocks(After(run[..b]), run[b], k, id);
    }
  }

  const TERMINAL := {ReportWritten, CancelWon, TimeoutWritten}

  ghost function Count(run: seq<Action>, ks: set<Milestone>, id: Uuid): nat
    requires Valid(run)
  {
    if run == [] then 0
    else
      var front := run[..|run| - 1];
      Count(front, ks, id) + if exists k | k in ks :: Happens(After(front), run[|run| - 1], k, id) then 1 else 0
  }

  lemma {:induction false} CountOnce(run: seq<Action>, k: Milestone, id: Uuid)
    requires Valid(run)
    ensures Count(run, {k}, id) <= 1
    ensures Count(run, {k}, id) == 1 ==> Spent(After(run), k, id)
  {
    hide Inv, Enabled, Apply, Spent, Happens;
    if run == [] {
    } else {
      var front, a := run[..|run| - 1], run[|run| - 1];
      CountOnce(front, k, id);
      ReachableInv(front);
      var s := After(front);
      if Happens(s, a, k, id) {
        HappeningSpends(s, a, k, id);
        if Spent(s, k, id) {
          SpentBlocks(s, a, k, id);
        }
      } else if Spent(s, k, id) {
        SpentStays(s, a, k, id);
      }
    }
  }

  lemma {:induction false} CountSplits(run: seq<Action>, id: Uuid)
    requires Valid(run)
    ensures Count(run, TERMINAL, id)
         <= Count(run, {ReportWritten}, id) + Count(run, {CancelWon}, id) + Count(run, {TimeoutWritten}, id)
  {
    hide Inv, Enabled, Apply, Spent, Happens;
    if run == [] {
    } else {
      var front, a := run[..|run| - 1], run[|run| - 1];
      CountSplits(front, id);
      if exists k | k in TERMINAL :: Happens(After(front), a, k, id) {
        var k :| k in TERMINAL && Happens(After(front), a, k, id);
        assert exists j | j in {k} :: Happens(After(front), a, j, id);
      }
    }
  }

  lemma OtherRowsKeepStatus(s: World, a: Action, id: Uuid)
    requires Enabled(s, a) && !a.ServerReceive? && !a.CancelRequest? && !a.ExpireJob?
    requires id in s.rows && id in Apply(s, a).rows
    ensures Apply(s, a).rows[id].status == s.rows[id].status
  {
    hide DoSendNotice, DoCheckQueue, DoServerReceive, DoCancel, DoExpire;
    hide DoRetry, DoConnect, DoRunnerReceive, DoStatusEvent;
    hide LaunchClaimed, MarkRunning, HandleCompletion, NewProc, JobForVm;
  }

  /** No other step turns a status into a completion, or one completion into another. */
  lemma OnlyThreeWriters(s: World, a: Action, id: Uuid)
    requires Inv(s) && Enabled(s, a) && id in s.rows && id in Apply(s, a).rows
    requires Apply(s, a).rows[id].status != s.rows[id].status && Apply(s, a).rows[id].status.Complete?
    ensures exists k | k in TERMINAL :: Happens(s, a, k, id)
  {
    hide Inv, DoSendNotice, DoCheckQueue, DoRetry, DoConnect, DoRunnerReceive, DoStatusEvent;
    hide LaunchClaimed, MarkRunning, HandleCompletion, NewProc;
    var k := if a.ServerReceive? then ReportWritten else if a.CancelRequest? then CancelWon else TimeoutWritten;
    if !a.ServerReceive? && !a.CancelRequest? && !a.ExpireJob? {
      OtherRowsKeepStatus(s, a, id);
    }
    assert k in TERMINAL && Happens(s, a, k, id);
  }

  /** At most three terminal writes over a job's whole life, at most one of each kind. */
  lemma AtMostThreeTerminalWrites(run: seq<Action>, id: Uuid)
    requires Valid(run)
    ensures Count(run, {ReportWritten}, id) <= 1 && Count(run, {CancelWon}, id) <= 1
    ensures Count(run, {TimeoutWritten}, id) <= 1
    ensures Count(run, TERMINAL, id) <= 3
  {
    CountOnce(run, ReportWritten, id);
    CountOnce(run, CancelWon, id);
    CountOnce(run, TimeoutWritten, id);
    CountSplits(run, id);
  }

  // ---------- When a verdict is kept ----------

  /** The step writes another status into the row: a report that differs from it, or a timeout that could not be
      announced while the row says something else. */
  predicate Overwrites(s: World, a: Action, id: Uuid)
    requires id in s.rows
  {
    || (Happens(s, a, ReportWritten, id) && s.soup[a.msg].cmsg.status != s.rows[id].status)
    || (Happens(s, a, TimeoutWritten, id) && s.rows[id].status != Complete(TimedOut))
  }

  lemma ReceiveKeepsVerdictIff(s: World, a: Action, id: Uuid)
    requires Enabled(s, a) && id in s.rows && s.rows[id].status.Complete? && a.ServerReceive?
    ensures id in Apply(s, a).rows && (Apply(s, a).rows[id].status == s.rows[id].status <==> !Overwrites(s, a, id))
  {
  }

  lemma CancelKeepsVerdict(s: World, a: Action, id: Uuid)
    requires Enabled(s, a) && id in s.rows && s.rows[id].status.Complete? && a.CancelRequest?
    ensures id in Apply(s, a).rows && Apply(s, a).rows[id].status == s.rows[id].status && !Overwrites(s, a, id)
  {
  }

  lemma ExpireKeepsVerdictIff(s: World, a: Action, id: Uuid)
    requires Enabled(s, a) && id in s.rows && s.rows[id].status.Complete? && a.ExpireJob?
    ensures id in Apply(s, a).rows && (Apply(s, a).rows[id].status == s.rows[id].status <==> !Overwrites(s, a, id))
  {
  }

  /** A finished row keeps its verdict in exactly the steps that do not overwrite it; a cancel never does. */
  lemma VerdictKeptIff(s: World, a: Action, id: Uuid)
    requires Inv(s) && Enabled(s, a) && id in s.rows && s.rows[id].status.Complete?
    ensures id in Apply(s, a).rows && (Apply(s, a).rows[id].status == s.rows[id].status <==> !Overwrites(s, a, id))
  {
    hide Inv, Apply;
    if a.ServerReceive? {
      ReceiveKeepsVerdictIff(s, a, id);
    } else if a.CancelRequest? {
      CancelKeepsVerdict(s, a, id);
    } else if a.ExpireJob? {
      ExpireKeepsVerdictIff(s, a, id);
    } else {
      StepGrows(s, a);
      OtherRowsKeepStatus(s, a, id);
    }
  }

  /** The row at this point of the run. */
  ghost predicate Shows(run: seq<Action>, k: nat, id: Uuid, status: JobStatus)
    requires k <= |run|
  {
    Valid(run[..k]) && id in After(run[..k]).rows && After(run[..k]).rows[id].status == status
  }

  ghost predicate OverwritesAt(run: seq<Action>, k: nat, id: Uuid)
    requires k < |run|
  {
    Valid(run[..k]) && id in After(run[..k]).rows && Overwrites(After(run[..k]), run[k], id)
  }

  lemma NextShows(run: seq<Action>, k: nat, id: Uuid, verdict: CompletionStatus)
    requires Valid(run) && k < |run| && Shows(run, k, id, Complete(verdict))
    ensures Shows(run, k + 1, id, Complete(verdict)) <==> !OverwritesAt(run, k, id)
  {
    hide Inv, Enabled, Apply, Overwrites;
    RunStep(run, k);
    VerdictKeptIff(After(run[..k]), run[k], id);
  }

  /** Over any stretch of any run a verdict stands throughout exactly if no step of the stretch overwrites it. */
  lemma {:induction false} VerdictStandsIff(run: seq<Action>, i: nat, j: nat, id: Uuid, verdict: CompletionStatus)
    requires Valid(run) && i <= j <= |run| && Shows(run, i, id, Complete(verdict))
    ensures (forall k | i <= k <= j :: Shows(run, k, id, Complete(verdict)))
       <==> (forall k | i <= k < j :: !OverwritesAt(run, k, id))
    decreases j - i
  {
    hide Shows, OverwritesAt;
    if i == j {
    } else {
      VerdictStandsIff(run, i, j - 1, id, verdict);
      if forall k | i <= k <= j - 1 :: Shows(run, k, id, Complete(verdict)) {
        NextShows(run, j - 1, id, verdict);
      }
    }
  }

  lemma OverwriteIsMilestone(run: seq<Action>, i: nat, id: Uuid) returns (m: Milestone)
    requires i < |run| && OverwritesAt(run, i, id)
    ensures (m == ReportWritten || m == TimeoutWritten) && At(run, i, m, id)
  {
    hide Happens;
    m := if Happens(After(run[..i]), run[i], ReportWritten, id) then ReportWritten else TimeoutWritten;
  }

  /** And that happens at most twice to a row: once by its report and once by a timeout. */
  lemma AtMostTwoOverwrites(run: seq<Action>, i: nat, j: nat, k: nat, id: Uuid)
    requires Valid(run) && i < j < k < |run|
    ensures !(OverwritesAt(run, i, id) && OverwritesAt(run, j, id) && OverwritesAt(run, k, id))
  {
    hide Inv, Enabled, Apply, Happens;
    if OverwritesAt(run, i, id) && OverwritesAt(run, j, id) && OverwritesAt(run, k, id) {
      var m := OverwriteIsMilestone(run, i, id);
      var n := OverwriteIsMilestone(run, j, id);
      var o := OverwriteIsMilestone(run, k, id);
      if m == n {
        AtMostOnce(run, i, j, m, id);
      } else if m == o {
        AtMostOnce(run, i, k, m, id);
      } else {
        AtMostOnce(run, j, k, n, id);
      }
    }
  }

  // ---------- The claimer and the VM fit the row ----------

  /** A job is only claimed by a connection of its own platform, which the row then names. */
  lemma ClaimsMatchPlatform(run: seq<Action>, i: nat, id: Uuid)
    requires Valid(run) && i < |run| && At(run, i, ClaimWon, id)
    ensures var s := After(run[..i]);
            var conn := s.soup[run[i].msg].conn;
            && conn in s.platforms && s.platforms[conn] == s.rows[id].platform
            && Valid(run[..i + 1]) && id in After(run[..i + 1]).rows
            && After(run[..i + 1]).rows[id].runnerId == Some(conn)
  {
    RunStep(run, i);
    var s := After(run[..i]);
    hide Inv;
    KnownEnvelope(s, run[i].msg);
  }

  /** The VM launched for a job has exactly the row's configuration, on a process of the row's platform,
      although no message after the offer was checked against the row. */
  lemma LaunchesMatchRow(run: seq<Action>, i: nat, id: Uuid)
    requires Valid(run) && i < |run| && At(run, i, VmLaunched, id)
    ensures var s, p := After(run[..i]), run[i].p;
            && id in s.rows && p in s.procs
            && s.procs[p].platform == s.rows[id].platform
            && Valid(run[..i + 1]) && p in After(run[..i + 1]).procs
            && var v := After(run[..i + 1]).procs[p].vms;
               v.launches == s.procs[p].vms.launches + 1 && s.procs[p].vms.launches in v.tasks
               && v.tasks[s.procs[p].vms.launches] == VMs.Task(id, ToVm(s.rows[id]), false)
  {
    hide Inv, LocalOk;
    RunStep(run, i);
    KnownProc(After(run[..i]), run[i].p);
  }

  /** The runner never reports anything but a completion, and only of jobs that were claimed. */
  lemma ReportsAreCompletions(run: seq<Action>, m: nat)
    requires Valid(run) && m in After(run).soup
    requires After(run).soup[m].ToServer? && After(run).soup[m].cmsg.UpdateJobStatus?
    ensures After(run).soup[m].cmsg.status.Complete?
    ensures var id := After(run).soup[m].cmsg.id;
            id in After(run).rows && Rank(After(run).rows[id].status) >= 1
  {
    ReachableInv(run);
    KnownEnvelope(After(run), m);
  }

  /** In every reachable state: one completion event per ended VM task, and a control channel exactly
      for the jobs whose task has not cleaned up. */
  lemma VmBookkeeping(run: seq<Action>, p: nat)
    requires Valid(run) && p in After(run).procs
    ensures VMs.OneCompletionPerLaunch(After(run).procs[p].vms)
    ensures VMs.ChannelsMatchTasks(After(run).procs[p].vms)
  {
    ReachableInv(run);
    KnownProc(After(run), p);
  }

  // ---------- Graceful shutdown ----------

  /** While shutting down a process takes no server messages and is not in the middle of one. */
  lemma OwnShutdownStep(s: World, a: Action)
    requires OfProcess(a) && a.p in s.procs && s.procs[a.p].shuttingDown
    requires Enabled(s, a) && a.p in Apply(s, a).procs && Inv(s)
    ensures var q, r := s.procs[a.p], Apply(s, a).procs[a.p];
            r.shuttingDown && r.jm.jobs.Keys == q.jm.jobs.Keys && JM.ActiveIds(r.jm.jobs) <= JM.ActiveIds(q.jm.jobs)
  {
    hide Inv, JM.Inv, VMs.ChannelsMatchTasks, VMs.OneCompletionPerLaunch, ProcOk;
    hide DoSendNotice, DoCheckQueue, DoServerReceive, DoCancel, DoExpire;
    hide DoRetry, DoConnect, DoRunnerReceive, DoStatusEvent;
    hide LaunchClaimed, MarkRunning, NewProc, JobForVm, VMs.Exit, VMs.CleanUp;
    KnownProc(s, a.p);
  }

  lemma ShutdownStep(s: World, a: Action, p: nat)
    requires Inv(s) && Enabled(s, a) && p in s.procs && s.procs[p].shuttingDown && p in Apply(s, a).procs
    ensures var q, r := s.procs[p], Apply(s, a).procs[p];
            r.shuttingDown && r.jm.jobs.Keys == q.jm.jobs.Keys && JM.ActiveIds(r.jm.jobs) <= JM.ActiveIds(q.jm.jobs)
  {
    hide Inv, Apply, Enabled, ProcOk, LocalOk;
    KnownProc(s, p);
    if OfProcess(a) && a.p == p {
      OwnShutdownStep(s, a);
    } else {
      OtherProcsStay(s, a, p);
    }
  }

  /** Process numbers are not reused. */
  lemma ProcWasThere(s: World, a: Action, p: nat)
    requires Inv(s) && Enabled(s, a) && p in Apply(s, a).procs && p < s.started
    ensures p in s.procs
  {
    hide Apply, Enabled, Happens, NewProc;
    Frame(s, a);
  }

  lemma StepStarts(s: World, a: Action)
    requires Enabled(s, a)
    ensures Apply(s, a).started >= s.started
  {
    hide Apply, Enabled, Happens, NewProc;
    Frame(s, a);
  }

  lemma {:induction false} StartedGrows(run: seq<Action>, i: nat, j: nat, p: nat)
    requires Valid(run) && i <= j <= |run| && Valid(run[..i]) && p < After(run[..i]).started
    ensures Valid(run[..j]) && p < After(run[..j]).started
    decreases j - i
  {
    hide Inv, Enabled, Apply;
    if i == j {
    } else {
      StartedGrows(run, i, j - 1, p);
      RunStep(run, j - 1);
      StepStarts(After(run[..j - 1]), run[j - 1]);
    }
  }

  lemma {:induction false} ProcPersists(run: seq<Action>, i: nat, j: nat, p: nat)
    requires Valid(run) && i <= j <= |run| && Valid(run[..i]) && Valid(run[..j])
    requires p in After(run[..i]).procs && p in After(run[..j]).procs
    ensures forall k | i <= k <= j :: Valid(run[..k]) && p in After(run[..k]).procs && p < After(run[..k]).started
    decreases j - i
  {
    hide Inv, Enabled, Apply;
    ReachableInv(run[..i]);
    KnownProc(After(run[..i]), p);
    StartedGrows(run, i, j, p);
    if i == j {
    } else {
      RunStep(run, j - 1);
      StartedGrows(run, i, j - 1, p);
      ProcWasThere(After(run[..j - 1]), run[j - 1], p);
      ProcPersists(run, i, j - 1, p);
    }
  }

  /** Once a runner is shutting down no job enters it and its active jobs only become fewer. */
  lemma {:induction false} ShutdownFreezes(run: seq<Action>, i: nat, j: nat, p: nat)
    requires Valid(run) && i <= j <= |run| && Valid(run[..i]) && Valid(run[..j])
    requires p in After(run[..i]).procs && p in After(run[..j]).procs && After(run[..i]).procs[p].shuttingDown
    ensures var a, b := After(run[..i]).procs[p], After(run[..j]).procs[p];
            && b.shuttingDown
            && b.jm.jobs.Keys == a.jm.jobs.Keys
            && JM.ActiveIds(b.jm.jobs) <= JM.ActiveIds(a.jm.jobs)
    decreases j - i
  {
    hide Inv, Enabled, Apply;
    if i == j {
    } else {
      ProcPersists(run, i, j, p);
      assert p in After(run[..j - 1]).procs;
      ShutdownFreezes(run, i, j - 1, p);
      RunStep(run, j - 1);
      ShutdownStep(After(run[..j - 1]), run[j - 1], p);
    }
  }

  /** A loop that has taken its graceful exit left only complete jobs behind. */
  lemma ClosedMeansComplete(run: seq<Action>, p: nat, id: Uuid)
    requires Valid(run) && p in After(run).procs && After(run).procs[p].closed && id in After(run).procs[p].jm.jobs
    ensures After(run).procs[p].jm.jobs[id].Complete?
  {
    ReachableInv(run);
    KnownProc(After(run), p);
    assert id !in JM.ActiveIds(After(run).procs[p].jm.jobs);
  }
}
