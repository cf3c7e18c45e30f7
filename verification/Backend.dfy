/** The backend's handlers over the job table and the channels of the connected runners. */
module Backend {
  import opened Protocol
  import opened JobTable

  /** Messages queued for each connected runner. */
  type Channels = map<Uuid, seq<ServerMessage>>

  const CHANNEL_CAPACITY: nat := 32

  datatype StatusCode = OK | BadRequest | NotFound

  /** `try_send` fails without waiting when the runner is gone or its channel is full. */
  predicate CanSend(channels: Channels, runner: Uuid) {
    runner in channels && |channels[runner]| < CHANNEL_CAPACITY
  }

  function Send(channels: Channels, runner: Uuid, message: ServerMessage): Channels {
    if CanSend(channels, runner) then channels[runner := channels[runner] + [message]] else channels
  }

  function Offer(id: Uuid, job: Job): ServerMessage {
    NewJobAvailable(id, ToVm(job))
  }

  /** A broadcast between the look at the connected runners and the sending. */
  datatype Broadcast = Broadcast(message: ServerMessage, platform: Platform, runnerIds: set<Uuid>)

  /** A runner has room for 32 messages; a sent one comes last, and nobody else gets it. */
  lemma SendAppends(channels: Channels, runner: Uuid, message: ServerMessage, other: Uuid)
    requires other in channels
    ensures Send(channels, runner, message).Keys == channels.Keys
    ensures Send(channels, runner, message)[other]
         == if other == runner && |channels[runner]| < 32 then channels[other] + [message] else channels[other]
  {
  }

  /** An offer tells the job's own platform and, for columns that hold no negative number, its own sizes. */
  lemma OfferTellsConfig(id: Uuid, job: Job)
    ensures var offer := Offer(id, job);
            && offer.NewJobAvailable? && offer.id == id && offer.vm.platform == job.platform
            && (job.cpus >= 0 ==> offer.vm.cpuCount == job.cpus)
            && (job.memoryMb >= 0 ==> offer.vm.memorySizeMb == job.memoryMb)
  {
  }

  /** The runner of a cancelled job is told exactly when the job was running, because a queued job has none.
      (The handler's own test of the status cannot tell: the row is complete by then.) */
  lemma CancelTellsRunningJobsOnly(rows: Rows, id: Uuid)
    requires AssignmentsOk(rows) && Cancellable(rows, id)
    ensures rows[id].runnerId.Some? <==> rows[id].status.Running?
    ensures Cancel(rows, id)[id].status == Complete(Cancelled) && Cancel(rows, id)[id].runnerId == rows[id].runnerId
  {
    assert AssignmentOk(rows[id]);
  }

  /** The new entries are timeouts of jobs in `ids` that belong to this runner. */
  ghost predicate OnlyTimeouts(entries: seq<ServerMessage>, runner: Uuid, expired: map<Uuid, Job>, ids: set<Uuid>) {
    forall i | 0 <= i < |entries| ::
      && entries[i].JobTimedOut? && entries[i].id in ids
      && entries[i].id in expired && expired[entries[i].id].runnerId == Some(runner)
  }

  /** Channels only grow, and only by timeouts. */
  ghost predicate GrewByTimeouts(before: Channels, after: Channels, expired: map<Uuid, Job>, ids: set<Uuid>) {
    && after.Keys == before.Keys
    && forall r | r in before :: before[r] <= after[r] && OnlyTimeouts(after[r][|before[r]|..], r, expired, ids)
  }

  lemma SendGrows(before: Channels, now: Channels, expired: map<Uuid, Job>, ids: set<Uuid>, id: Uuid)
    requires GrewByTimeouts(before, now, expired, ids)
    requires id in expired && expired[id].runnerId.Some? && CanSend(now, expired[id].runnerId.value)
    ensures GrewByTimeouts(before, Send(now, expired[id].runnerId.value, JobTimedOut(id)), expired, ids + {id})
  {
    var runner := expired[id].runnerId.value;
    var after := Send(now, runner, JobTimedOut(id));
    forall r | r in before
      ensures before[r] <= after[r] && OnlyTimeouts(after[r][|before[r]|..], r, expired, ids + {id}) {
      assert OnlyTimeouts(now[r][|before[r]|..], r, expired, ids);
      if r == runner {
        assert after[r][|before[r]|..] == now[r][|before[r]|..] + [JobTimedOut(id)];
      }
    }
  }

  lemma NothingGrew(channels: Channels, expired: map<Uuid, Job>)
    ensures GrewByTimeouts(channels, channels, expired, {})
  {
  }

  class Backend {
    const jobs: Jobs
    var runners: Channels
    var platforms: map<Uuid, Platform>

    constructor ()
      ensures fresh(jobs) && jobs.rows == map[] && runners == map[] && platforms == map[]
    {
      jobs := new Jobs();
      runners, platforms := map[], map[];
    }

    /** A connection gets its own runner row and channel. */
    method Register(runner: Uuid, platform: Platform)
      requires runner !in platforms
      modifies this
      ensures runners == old(runners)[runner := []] && platforms == old(platforms)[runner := platform]
    {
      platforms := platforms[runner := platform];
      runners := runners[runner := []];
    }

    method Unregister(runner: Uuid)
      modifies this
      ensures runners == old(runners) - {runner} && platforms == old(platforms)
    {
      runners := runners - {runner};
    }

    method TrySendTo(runner: Uuid, message: ServerMessage) returns (success: bool)
      modifies this
      ensures success <==> runner in old(runners) && |old(runners)[runner]| < 32
      ensures success ==> runner in runners && runners[runner] == old(runners)[runner] + [message]
      ensures runners == Send(old(runners), runner, message) && platforms == old(platforms)
    {
      success := false;
      if runner in runners && |runners[runner]| < CHANNEL_CAPACITY {
        runners := runners[runner := runners[runner] + [message]];
        success := true;
      }
    }

    /** The message and the runners connected now, for a task that sends it later; no task when nobody is connected. */
    method BroadcastJobAvailable(id: Uuid, job: Job) returns (task: Option<Broadcast>)
      ensures task == if runners == map[] then None else Some(Broadcast(Offer(id, job), job.platform, runners.Keys))
    {
      if runners == map[] {
        return None;
      }
      task := Some(Broadcast(Offer(id, job), job.platform, runners.Keys));
    }

    /** The task, some time later: of the runners connected back then, those of the platform get the message if they
        are still connected and have room. */
    method RunBroadcast(task: Broadcast) returns (count: nat)
      modifies this
      ensures platforms == old(platforms) && runners.Keys == old(runners).Keys
      ensures forall r | r in runners ::
                runners[r] == if r in task.runnerIds && r in platforms && platforms[r] == task.platform
                                 && |old(runners)[r]| < 32
                              then old(runners)[r] + [task.message] else old(runners)[r]
      ensures count == |set r | r in task.runnerIds && r in platforms && platforms[r] == task.platform
                                && r in old(runners) && |old(runners)[r]| < 32|
    {
      var matching := set r | r in task.runnerIds && r in platforms && platforms[r] == task.platform;
      var rest := matching;
      ghost var told: set<Uuid> := {};
      count := 0;
      while rest != {}
        invariant rest <= matching && platforms == old(platforms) && runners.Keys == old(runners).Keys
        invariant told == set r | r in matching && r !in rest && CanSend(old(runners), r)
        invariant count == |told|
        invariant forall r | r in runners ::
                    runners[r] == if r in told then old(runners)[r] + [task.message] else old(runners)[r]
        decreases rest
      {
        var r :| r in rest;
        var sent := TrySendTo(r, task.message);
        if sent {
          count := count + 1;
          told := told + {r};
        }
        rest := rest - {r};
      }
      assert told == set r | r in task.runnerIds && r in platforms && platforms[r] == task.platform
                             && r in old(runners) && |old(runners)[r]| < 32;
    }

    /** Answers a claim: a reply, with the claimer's own copy of the VM, exactly when the row was still queued. */
    method HandleClaim(runner: Uuid, id: Uuid, vm: VM) returns (reply: Option<ServerMessage>)
      modifies jobs
      ensures jobs.rows == Claim(old(jobs.rows), id, runner)
      ensures reply == if id in old(jobs.rows) && old(jobs.rows)[id].status == Queued
                       then Some(JobClaimed(id, vm)) else None
    {
      var updated := jobs.ClaimJobForRunner(id, runner);
      reply := None;
      if updated == 1 {
        reply := Some(JobClaimed(id, vm));
      }
    }

    /** The oldest queued job of the runner's platform, as an offer. */
    method CheckAndSendJob(runner: Uuid, locked: set<Uuid>) returns (offer: Option<ServerMessage>)
      ensures runner !in platforms ==> offer.None?
      ensures runner in platforms ==>
                var found := FindQueued(jobs.rows, platforms[runner], locked);
                offer == if found.Some? then Some(Offer(found.value, jobs.rows[found.value])) else None
      ensures offer.Some? ==> offer.value.NewJobAvailable? && offer.value.id in jobs.rows && offer.value.id !in locked
                              && jobs.rows[offer.value.id].status == Queued
                              && jobs.rows[offer.value.id].platform == platforms[runner]
      ensures runner in platforms ==>
                forall id | id in jobs.rows && id !in locked && jobs.rows[id].status == Queued
                            && jobs.rows[id].runnerId == None && jobs.rows[id].platform == platforms[runner] ::
                  offer.Some? && offer.value.id <= id
    {
      offer := None;
      if runner in platforms {
        var candidates := QueueCandidates(jobs.rows, platforms[runner], locked);
        if candidates != {} {
          ghost var least := LeastId(candidates);
          assert least in candidates && forall x | x in candidates :: least <= x;
          var id :| id in candidates && forall x | x in candidates :: id <= x;
          offer := Some(Offer(id, jobs.rows[id]));
        }
      }
    }

    method CancelJob(id: Uuid) returns (code: StatusCode)
      modifies this, jobs
      ensures jobs.rows == Cancel(old(jobs.rows), id) && platforms == old(platforms)
      ensures code == if id !in old(jobs.rows) then NotFound
                      else if old(jobs.rows)[id].status == Queued || old(jobs.rows)[id].status == Running then OK
                      else BadRequest
      ensures code == OK ==> id in jobs.rows && jobs.rows[id].status == Complete(Cancelled)
      ensures runners == if code == OK && old(jobs.rows)[id].runnerId.Some?
                         then Send(old(runners), old(jobs.rows)[id].runnerId.value, JobCancelled(id))
                         else old(runners)
    {
      var outcome := jobs.CancelJob(id);
      match outcome {
        case None => code := NotFound;
        case Some((cancelled, job)) =>
          if !cancelled {
            return BadRequest;
          }
          if job.status != Complete(Skipped) && job.runnerId.Some? {
            var _ := TrySendTo(job.runnerId.value, JobCancelled(id));
          }
          code := OK;
      }
    }

    /** One pass of the timeout checker over the rows it read. Every overdue job with a runner is either
        announced to that runner or, if that is impossible, finished on the spot; never both, never neither. */
    method TimeoutPass(expired: map<Uuid, Job>) returns (notified: set<Uuid>, finished: set<Uuid>)
      modifies this, jobs
      ensures platforms == old(platforms)
      ensures notified !! finished && notified + finished == set id | id in expired && expired[id].runnerId.Some?
      ensures jobs.rows.Keys == old(jobs.rows).Keys
      ensures forall id | id in jobs.rows ::
                jobs.rows[id] == if id in finished
                  then old(jobs.rows)[id].(status := Complete(TimedOut)) else old(jobs.rows)[id]
      ensures GrewByTimeouts(old(runners), runners, expired, notified)
      ensures forall id | id in notified ::
                expired[id].runnerId.value in runners && JobTimedOut(id) in runners[expired[id].runnerId.value]
      ensures forall id | id in finished :: !CanSend(runners, expired[id].runnerId.value)
    {
      hide GrewByTimeouts;
      notified, finished := {}, {};
      var rest := expired.Keys;
      NothingGrew(runners, expired);
      while rest != {}
        invariant rest <= expired.Keys && platforms == old(platforms)
        invariant notified !! finished
        invariant notified + finished == set id | id in expired && id !in rest && expired[id].runnerId.Some?
        invariant jobs.rows.Keys == old(jobs.rows).Keys
        invariant forall id | id in jobs.rows ::
                    jobs.rows[id] == if id in finished
                      then old(jobs.rows)[id].(status := Complete(TimedOut)) else old(jobs.rows)[id]
        invariant GrewByTimeouts(old(runners), runners, expired, notified)
        invariant forall id | id in notified ::
                    expired[id].runnerId.value in runners && JobTimedOut(id) in runners[expired[id].runnerId.value]
        invariant forall id | id in finished :: !CanSend(runners, expired[id].runnerId.value)
        decreases rest
      {
        var id :| id in rest;
        if expired[id].runnerId.Some? {
          var runner := expired[id].runnerId.value;
          ghost var now := runners;
          var told := TrySendTo(runner, JobTimedOut(id));
          if told {
            SendGrows(old(runners), now, expired, notified, id);
            notified := notified + {id};
          } else {
            jobs.CompleteJob(id, TimedOut);
            finished := finished + {id};
          }
        }
        rest := rest - {id};
      }
    }
  }
}
