/** What every step of the lifecycle keeps. */
module LifecycleInvariant {
  import opened Protocol
  import opened JobTable
  import opened Runner
  import opened Lifecycle
  import JM = JobManager
  import VMs = VmManager

  // ---------- The invariant ----------

  /** A job with this configuration may be offered to, or claimed by, this connection. */
  predicate OfferOk(rows: Rows, platforms: map<Uuid, Platform>, conn: Uuid, id: Uuid, vm: VM) {
    && id in rows && vm == ToVm(rows[id])
    && conn in platforms && platforms[conn] == vm.platform
  }

  predicate Taken(rows: Rows, id: Uuid) {
    id in rows && Rank(rows[id].status) >= 1
  }

  predicate EnvelopeOk(rows: Rows, platforms: map<Uuid, Platform>, e: Envelope) {
    match e
    case ToRunner(conn, NewJobAvailable(id, vm)) => OfferOk(rows, platforms, conn, id, vm)
    case ToRunner(conn, JobClaimed(id, vm)) =>
      OfferOk(rows, platforms, conn, id, vm) && Taken(rows, id) && rows[id].runnerId == Some(conn)
    case ToServer(conn, ClaimJob(id, vm)) => OfferOk(rows, platforms, conn, id, vm)
    case ToServer(_, UpdateJobStatus(id, status)) => status.Complete? && Taken(rows, id)
    case _ => true
  }

  /** The claiming connection belonged to a runner of the job's platform. */
  predicate RunnerOk(platforms: map<Uuid, Platform>, job: Job) {
    job.runnerId.Some? ==> job.runnerId.value in platforms && platforms[job.runnerId.value] == job.platform
  }

  ghost predicate TableOk(rows: Rows, platforms: map<Uuid, Platform>) {
    && AssignmentsOk(rows)
    && Forest(rows)
    && forall id | id in rows :: RunnerOk(platforms, rows[id])
  }

  predicate ExpiredOk(rows: Rows, id: Uuid, copy: Job) {
    Taken(rows, id) && copy.runnerId.Some? && rows[id].runnerId == copy.runnerId
  }

  predicate RetryOk(rows: Rows, r: RetryRequest) {
    r.id in rows && rows[r.id].status.Complete? && SameConfig(r.original, rows[r.id])
  }

  ghost predicate BackendOk(s: World) {
    && TableOk(s.rows, s.platforms)
    && s.registered <= s.platforms.Keys
    && (forall n | n in s.notices :: n.id in s.rows && n.vm == ToVm(s.rows[n.id]))
    && (forall id | id in s.expired :: ExpiredOk(s.rows, id, s.expired[id]))
    && (forall k | k in s.retries :: RetryOk(s.rows, s.retries[k]))
  }

  ghost predicate SoupOk(s: World) {
    forall m | m in s.soup :: EnvelopeOk(s.rows, s.platforms, s.soup[m])
  }

  /** The VM has the row's configuration and runs on the row's platform. */
  predicate VmOk(rows: Rows, p: Proc, id: Uuid, vm: VM) {
    id in rows && vm == ToVm(rows[id]) && vm.platform == p.platform && rows[id].runnerId.Some?
  }

  ghost predicate ProcOk(rows: Rows, platforms: map<Uuid, Platform>, p: Proc) {
    && (p.conn.Some? ==> p.conn.value in platforms && platforms[p.conn.value] == p.platform)
    && (forall id | id in p.jm.jobs :: Taken(rows, id))
    && (p.phase.Registered? ==>
          && VmOk(rows, p, p.phase.id, p.phase.vm)
          && p.phase.id in p.jm.jobs && p.phase.id !in p.vms.channels)
    && (forall t | t in p.vms.tasks :: VmOk(rows, p, p.vms.tasks[t].jobId, p.vms.tasks[t].vm))
    && LocalOk(p)
  }

  /** The part of the invariant that is the process's own business. */
  ghost predicate LocalOk(p: Proc) {
    && JM.Inv(p.jm)
    && p.read <= |p.jm.log|
    && p.vms.channels.Keys <= p.jm.jobs.Keys
    && VMs.ChannelsMatchTasks(p.vms)
    && VMs.OneCompletionPerLaunch(p.vms)
    && (p.shuttingDown ==> p.phase.Idle?)
    && (p.closed ==> p.shuttingDown && JM.ActiveIds(p.jm.jobs) == {})
  }

  ghost predicate ProcsOk(s: World) {
    forall p | p in s.procs :: p < s.started && ProcOk(s.rows, s.platforms, s.procs[p])
  }

  predicate IsTicket(e: Envelope, id: Uuid) {
    e.ToRunner? && e.smsg.JobClaimed? && e.smsg.id == id
  }

  predicate IsReport(e: Envelope, id: Uuid) {
    e.ToServer? && e.cmsg.UpdateJobStatus? && e.cmsg.id == id
  }

  ghost predicate NoTicket(soup: map<nat, Envelope>, id: Uuid) {
    forall m | m in soup :: !IsTicket(soup[m], id)
  }

  ghost predicate NoReport(soup: map<nat, Envelope>, id: Uuid) {
    forall m | m in soup :: !IsReport(soup[m], id)
  }

  /** The process has said its last word about the job, or never heard of it. */
  ghost predicate Quiet(p: Proc, id: Uuid) {
    && (id in p.jm.jobs ==> p.jm.jobs[id].Complete?)
    && forall i | p.read <= i < |p.jm.log| :: !JM.Terminal(p.jm.log[i], id)
  }

  ghost predicate AllQuiet(procs: map<nat, Proc>, id: Uuid) {
    forall p | p in procs :: Quiet(procs[p], id)
  }

  predicate Knows(p: Proc, id: Uuid) {
    id in p.jm.jobs
  }

  ghost predicate NobodyKnows(procs: map<nat, Proc>, id: Uuid) {
    forall p | p in procs :: !Knows(procs[p], id)
  }

  /** The right to run a job is a token: a claim's answer in flight, then one process's entry,
      then one report in flight. */
  ghost predicate TokensOk(procs: map<nat, Proc>, soup: map<nat, Envelope>) {
    && (forall m1, m2, id | m1 in soup && m2 in soup && IsTicket(soup[m1], id) && IsTicket(soup[m2], id) :: m1 == m2)
    && (forall m, id {:trigger IsTicket(soup[m], id)} | m in soup && IsTicket(soup[m], id) ::
          NoReport(soup, id) && NobodyKnows(procs, id))
    && (forall p1, p2, id | p1 in procs && p2 in procs && Knows(procs[p1], id) && Knows(procs[p2], id) :: p1 == p2)
    && (forall m1, m2, id | m1 in soup && m2 in soup && IsReport(soup[m1], id) && IsReport(soup[m2], id) :: m1 == m2)
    && (forall m, id {:trigger IsReport(soup[m], id)} | m in soup && IsReport(soup[m], id) :: AllQuiet(procs, id))
  }

  ghost predicate Inv(s: World) {
    BackendOk(s) && SoupOk(s) && ProcsOk(s) && TokensOk(s.procs, s.soup)
  }

  // ---------- Growth of the database keeps what was true of it ----------

  ghost predicate Grows(s: World, t: World) {
    && Evolves(s.rows, t.rows)
    && forall c | c in s.platforms :: c in t.platforms && t.platforms[c] == s.platforms[c]
  }

  lemma EnvelopeStaysOk(s: World, t: World, e: Envelope)
    requires Grows(s, t) && EnvelopeOk(s.rows, s.platforms, e)
    ensures EnvelopeOk(t.rows, t.platforms, e)
  {
  }

  lemma ProcStaysOk(s: World, t: World, p: Proc)
    requires Grows(s, t) && ProcOk(s.rows, s.platforms, p)
    ensures ProcOk(t.rows, t.platforms, p)
  {
    forall id | id in p.jm.jobs ensures Taken(t.rows, id) {
      assert Taken(s.rows, id);
    }
    forall u | u in p.vms.tasks ensures VmOk(t.rows, p, p.vms.tasks[u].jobId, p.vms.tasks[u].vm) {
      assert VmOk(s.rows, p, p.vms.tasks[u].jobId, p.vms.tasks[u].vm);
    }
  }

  /** Messages that were already there, in a world that has grown. */
  lemma SoupStaysOk(s: World, t: World)
    requires SoupOk(s) && Grows(s, t)
    requires forall m | m in t.soup ::
               (m in s.soup && t.soup[m] == s.soup[m]) || EnvelopeOk(t.rows, t.platforms, t.soup[m])
    ensures SoupOk(t)
  {
    forall m | m in t.soup ensures EnvelopeOk(t.rows, t.platforms, t.soup[m]) {
      if m in s.soup && t.soup[m] == s.soup[m] {
        EnvelopeStaysOk(s, t, s.soup[m]);
      }
    }
  }

  lemma ProcsStayOk(s: World, t: World)
    requires ProcsOk(s) && Grows(s, t) && s.started <= t.started
    requires forall p | p in t.procs :: (p in s.procs && t.procs[p] == s.procs[p])
                                     || (p < t.started && ProcOk(t.rows, t.platforms, t.procs[p]))
    ensures ProcsOk(t)
  {
    forall p | p in t.procs ensures p < t.started && ProcOk(t.rows, t.platforms, t.procs[p]) {
      if p in s.procs && t.procs[p] == s.procs[p] {
        ProcStaysOk(s, t, s.procs[p]);
      }
    }
  }

  lemma BackendStaysOk(s: World, t: World)
    requires BackendOk(s) && Grows(s, t) && TableOk(t.rows, t.platforms) && t.registered <= t.platforms.Keys
    requires forall n | n in t.notices :: n in s.notices || (n.id in t.rows && n.vm == ToVm(t.rows[n.id]))
    requires forall id | id in t.expired :: (id in s.expired && t.expired[id] == s.expired[id])
                                         || ExpiredOk(t.rows, id, t.expired[id])
    requires forall k | k in t.retries ::
               (k in s.retries && t.retries[k] == s.retries[k]) || RetryOk(t.rows, t.retries[k])
    ensures BackendOk(t)
  {
    forall id | id in t.expired ensures ExpiredOk(t.rows, id, t.expired[id]) {
      if id in s.expired && t.expired[id] == s.expired[id] {
        assert ExpiredOk(s.rows, id, s.expired[id]);
      }
    }
    forall k | k in t.retries ensures RetryOk(t.rows, t.retries[k]) {
      if k in s.retries && t.retries[k] == s.retries[k] {
        assert RetryOk(s.rows, s.retries[k]);
      }
    }
  }

  // ---------- Table updates evolve ----------

  lemma SetCompleteEvolves(rows: Rows, platforms: map<Uuid, Platform>, id: Uuid, c: CompletionStatus)
    requires TableOk(rows, platforms)
    ensures Evolves(rows, SetStatus(rows, id, Complete(c)))
    ensures TableOk(SetStatus(rows, id, Complete(c)), platforms)
  {
    var after := SetStatus(rows, id, Complete(c));
    SameLinksKeepForest(rows, after);
    forall i | i in after ensures AssignmentOk(after[i]) && RunnerOk(platforms, after[i]) {
      assert AssignmentOk(rows[i]) && RunnerOk(platforms, rows[i]);
    }
  }

  lemma ClaimEvolves(rows: Rows, platforms: map<Uuid, Platform>, id: Uuid, conn: Uuid)
    requires TableOk(rows, platforms)
    requires Claimable(rows, id) ==> conn in platforms && platforms[conn] == rows[id].platform
    ensures Evolves(rows, Claim(rows, id, conn))
    ensures TableOk(Claim(rows, id, conn), platforms)
  {
    var after := Claim(rows, id, conn);
    if id in rows {
      assert AssignmentOk(rows[id]);
    }
    SameLinksKeepForest(rows, after);
    forall i | i in after ensures AssignmentOk(after[i]) && RunnerOk(platforms, after[i]) {
      assert AssignmentOk(rows[i]) && RunnerOk(platforms, rows[i]);
    }
  }

  lemma InsertEvolves(rows: Rows, platforms: map<Uuid, Platform>, id: Uuid, vm: VM)
    requires TableOk(rows, platforms) && id !in rows
    ensures Evolves(rows, rows[id := JobForVm(vm)])
    ensures TableOk(rows[id := JobForVm(vm)], platforms)
  {
    var after := rows[id := JobForVm(vm)];
    InsertRootKeepsForest(rows, id, JobForVm(vm));
    forall i | i in after ensures AssignmentOk(after[i]) && RunnerOk(platforms, after[i]) {
      assert i in rows ==> AssignmentOk(rows[i]) && RunnerOk(platforms, rows[i]);
    }
  }

  lemma RetryEvolves(rows: Rows, platforms: map<Uuid, Platform>, r: RetryRequest, newId: Uuid)
    requires TableOk(rows, platforms) && RetryOk(rows, r) && newId !in rows
    ensures Evolves(rows, Retry(rows, r.id, r.original, newId))
    ensures TableOk(Retry(rows, r.id, r.original, newId), platforms)
  {
    var after := Retry(rows, r.id, r.original, newId);
    RetryKeepsForest(rows, r.id, r.original, newId);
    forall i | i in after ensures AssignmentOk(after[i]) && RunnerOk(platforms, after[i]) {
      assert i in rows ==> AssignmentOk(rows[i]) && RunnerOk(platforms, rows[i]);
    }
  }

  lemma PlatformsGrow(s: World, platforms: map<Uuid, Platform>)
    requires TableOk(s.rows, s.platforms)
    requires forall c | c in s.platforms :: c in platforms && platforms[c] == s.platforms[c]
    ensures TableOk(s.rows, platforms) && Evolves(s.rows, s.rows)
  {
    forall i | i in s.rows ensures RunnerOk(platforms, s.rows[i]) {
      assert RunnerOk(s.platforms, s.rows[i]);
    }
  }

  // ---------- Tokens ----------

  /** The process learns of no job and says nothing new about a finished one. */
  ghost predicate Calm(p: Proc, q: Proc) {
    && (forall id | Knows(q, id) :: Knows(p, id))
    && forall id | Quiet(p, id) :: Quiet(q, id)
  }

  predicate Plain(e: Envelope) {
    !(e.ToRunner? && e.smsg.JobClaimed?) && !(e.ToServer? && e.cmsg.UpdateJobStatus?)
  }

  predicate Newcomer(p: Proc) {
    p.jm == JM.EMPTY
  }

  /** At most plain messages are added. */
  ghost predicate SoupQuiet(s: World, t: World) {
    forall m | m in t.soup ::
      (m in s.soup && t.soup[m] == s.soup[m]) || (Plain(t.soup[m]) && EnvelopeOk(t.rows, t.platforms, t.soup[m]))
  }

  /** Processes are unchanged, calmly changed, or new. */
  ghost predicate ProcsCalm(s: World, t: World) {
    && s.started <= t.started
    && forall p | p in t.procs ::
         || (p in s.procs && t.procs[p] == s.procs[p])
         || (p < t.started && ProcOk(t.rows, t.platforms, t.procs[p])
             && (Newcomer(t.procs[p]) || (p in s.procs && Calm(s.procs[p], t.procs[p]))))
  }

  lemma CalmKeepsTokens(s: World, t: World)
    requires TokensOk(s.procs, s.soup) && SoupQuiet(s, t) && ProcsCalm(s, t)
    ensures TokensOk(t.procs, t.soup)
  {
    hide ProcOk, EnvelopeOk;
    forall m, id | m in t.soup && IsTicket(t.soup[m], id) ensures NoReport(t.soup, id) && NobodyKnows(t.procs, id) {
      assert m in s.soup && IsTicket(s.soup[m], id);
      assert NoReport(s.soup, id) && NobodyKnows(s.procs, id);
    }
    forall m, id | m in t.soup && IsReport(t.soup[m], id) ensures AllQuiet(t.procs, id) {
      assert m in s.soup && IsReport(s.soup[m], id);
      assert AllQuiet(s.procs, id);
    }
  }

  /** The general shape of a step that moves no token. */
  lemma QuietStep(s: World, t: World)
    requires Inv(s) && Grows(s, t) && BackendOk(t) && SoupQuiet(s, t) && ProcsCalm(s, t)
    ensures Inv(t)
  {
    assert SoupOk(t) by {
      SoupStaysOk(s, t);
    }
    assert ProcsOk(t) by {
      ProcsStayOk(s, t);
    }
    CalmKeepsTokens(s, t);
  }

  lemma CalmUpdate(p: Proc, q: Proc, id: Uuid, status: JobStatus)
    requires q.jm == JM.Update(p.jm, id, status) && q.read >= p.read
    ensures Calm(p, q)
  {
    forall i | Quiet(p, i) ensures Quiet(q, i) {
      assert forall k | 0 <= k < |p.jm.log| :: q.jm.log[k] == p.jm.log[k];
    }
  }

  lemma CalmSame(p: Proc, q: Proc)
    requires q.jm == p.jm && q.read >= p.read
    ensures Calm(p, q)
  {
    forall i | Quiet(p, i) ensures Quiet(q, i) {
    }
  }
}
