/** What the VMs of one runner hold: guards over accounts, addresses and context ids, released in the background. */
module VmHost {
  import opened Protocol
  import opened Allocator
  import Pools = AddressPool

  datatype Kind = Ip | Cid

  datatype Held = HeldJob(id: Uuid, vm: VM) | HeldAddress(kind: Kind, n: nat)

  /** `Guarded` belongs to a live guard, `Releasing` to the task a dropped guard has spawned, and `Loose`
      was taken out of its guard and waits to be released by hand. */
  datatype Phase = Guarded | Releasing | Loose

  datatype Token = Token(held: Held, phase: Phase)

  datatype Host = Host(accounts: Accounts, ips: seq<nat>, cids: seq<nat>, tokens: map<nat, Token>)

  /** `g` numbers the guards. */
  datatype Action =
    | GuardJob(g: nat, id: Uuid, vm: VM)
    | GuardAddress(g: nat, kind: Kind)
    | DropGuard(g: nat)
    | TakeGuard(g: nat)
    | RunRelease(g: nat)

  function First(kind: Kind): nat {
    if kind.Ip? then Pools.FIRST_IP else Pools.FIRST_CID
  }

  function Last(kind: Kind): nat {
    if kind.Ip? then Pools.LAST_IP else Pools.LAST_CID
  }

  function Free(h: Host, kind: Kind): seq<nat> {
    if kind.Ip? then h.ips else h.cids
  }

  function SetFree(h: Host, kind: Kind, free: seq<nat>): Host {
    if kind.Ip? then h.(ips := free) else h.(cids := free)
  }

  const INIT :=
    Host(NO_JOBS, Pools.Range(Pools.FIRST_IP, Pools.LAST_IP), Pools.Range(Pools.FIRST_CID, Pools.LAST_CID), map[])

  function GiveBack(h: Host, held: Held): Host {
    match held
    case HeldJob(id, _) => h.(accounts := Release(h.accounts, id))
    case HeldAddress(kind, n) => SetFree(h, kind, Free(h, kind) + [n])
  }

  /** Guards are new, and every VM allocates under an id of its own. */
  predicate Enabled(h: Host, a: Action) {
    match a
    case GuardJob(g, id, _) => g !in h.tokens && id !in h.accounts.jobs
    case GuardAddress(g, _) => g !in h.tokens
    case DropGuard(g) => g in h.tokens && h.tokens[g].phase.Guarded?
    case TakeGuard(g) => g in h.tokens && h.tokens[g].phase.Guarded?
    case RunRelease(g) => g in h.tokens && !h.tokens[g].phase.Guarded?
  }

  function Apply(h: Host, a: Action, limits: Limits): Host
    requires Enabled(h, a)
  {
    match a
    case GuardJob(g, id, vm) =>
      if Fits(h.accounts, vm, limits)
      then h.(accounts := Allocate(h.accounts, id, vm, limits),
               tokens := h.tokens[g := Token(HeldJob(id, vm), Guarded)])
      else h
    case GuardAddress(g, kind) =>
      var free := Free(h, kind);
      if free == [] then h
      else SetFree(h, kind, free[1..]).(tokens := h.tokens[g := Token(HeldAddress(kind, free[0]), Guarded)])
    case DropGuard(g) => h.(tokens := h.tokens[g := h.tokens[g].(phase := Releasing)])
    case TakeGuard(g) => h.(tokens := h.tokens[g := h.tokens[g].(phase := Loose)])
    case RunRelease(g) => GiveBack(h, h.tokens[g].held).(tokens := h.tokens - {g})
  }

  ghost predicate Valid(run: seq<Action>, limits: Limits)
    decreases |run|, 0
  {
    run == [] || (Valid(run[..|run| - 1], limits) && Enabled(After(run[..|run| - 1], limits), run[|run| - 1]))
  }

  ghost function After(run: seq<Action>, limits: Limits): Host
    requires Valid(run, limits)
    decreases |run|, 1
  {
    if run == [] then INIT else Apply(After(run[..|run| - 1], limits), run[|run| - 1], limits)
  }

  // ---------- The invariant ----------

  ghost predicate Holds(tokens: map<nat, Token>, g: nat, held: Held) {
    g in tokens && tokens[g].held == held
  }

  /** The free queue and the held addresses partition the initial range. */
  ghost predicate PoolOk(free: seq<nat>, tokens: map<nat, Token>, kind: Kind) {
    && Pools.NoDuplicates(free)
    && (forall g1, g2, n: nat | Holds(tokens, g1, HeldAddress(kind, n))
               && Holds(tokens, g2, HeldAddress(kind, n)) :: g1 == g2)
    && (forall g, n: nat | Holds(tokens, g, HeldAddress(kind, n)) :: n !in free && First(kind) <= n <= Last(kind))
    && (forall n | n in free :: First(kind) <= n <= Last(kind))
    && (forall n | First(kind) <= n <= Last(kind) :: n in free || exists g :: Holds(tokens, g, HeldAddress(kind, n)))
  }

  /** The job map lists exactly the VMs some guard, release task or taken guard stands for. */
  ghost predicate JobsOk(jobs: map<Uuid, VM>, tokens: map<nat, Token>) {
    && (forall g | g in tokens && tokens[g].held.HeldJob? ::
          tokens[g].held.id in jobs && jobs[tokens[g].held.id] == tokens[g].held.vm)
    && (forall g1, g2 | g1 in tokens && g2 in tokens && tokens[g1].held.HeldJob? && tokens[g2].held.HeldJob?
                        && tokens[g1].held.id == tokens[g2].held.id :: g1 == g2)
    && (forall id | id in jobs :: exists g :: Holds(tokens, g, HeldJob(id, jobs[id])))
  }

  ghost predicate BooksOk(a: Accounts, limits: Limits) {
    WithinLimits(a, limits) && forall r :: Counter(a, r) == Total(a.jobs, r)
  }

  ghost predicate Inv(h: Host, limits: Limits) {
    && BooksOk(h.accounts, limits)
    && JobsOk(h.accounts.jobs, h.tokens)
    && PoolOk(h.ips, h.tokens, Ip)
    && PoolOk(h.cids, h.tokens, Cid)
  }

  // ---------- Each step keeps it ----------

  lemma PoolIgnores(free: seq<nat>, tokens: map<nat, Token>, after: map<nat, Token>, kind: Kind)
    requires PoolOk(free, tokens, kind)
    requires forall g, n: nat :: Holds(after, g, HeldAddress(kind, n)) <==> Holds(tokens, g, HeldAddress(kind, n))
    ensures PoolOk(free, after, kind)
  {
    forall n | First(kind) <= n <= Last(kind) && n !in free ensures exists g :: Holds(after, g, HeldAddress(kind, n)) {
      var g :| Holds(tokens, g, HeldAddress(kind, n));
      assert Holds(after, g, HeldAddress(kind, n));
    }
  }

  lemma PoolIssues(free: seq<nat>, tokens: map<nat, Token>, g: nat, kind: Kind)
    requires PoolOk(free, tokens, kind) && free != [] && g !in tokens
    ensures PoolOk(free[1..], tokens[g := Token(HeldAddress(kind, free[0]), Guarded)], kind)
  {
    var after := tokens[g := Token(HeldAddress(kind, free[0]), Guarded)];
    assert free[0] in free && forall n | n in free[1..] :: n in free && n != free[0];
    forall n | First(kind) <= n <= Last(kind) && n !in free[1..]
      ensures exists k :: Holds(after, k, HeldAddress(kind, n)) {
      if n in free {
        assert n == free[0] && Holds(after, g, HeldAddress(kind, n));
      } else {
        var k :| Holds(tokens, k, HeldAddress(kind, n));
        assert Holds(after, k, HeldAddress(kind, n));
      }
    }
    forall k, n: nat | Holds(after, k, HeldAddress(kind, n)) ensures n !in free[1..] && First(kind) <= n <= Last(kind) {
      assert k == g || Holds(tokens, k, HeldAddress(kind, n));
    }
    forall g1, g2, n: nat | Holds(after, g1, HeldAddress(kind, n)) && Holds(after, g2, HeldAddress(kind, n))
      ensures g1 == g2 {
      assert g1 != g ==> Holds(tokens, g1, HeldAddress(kind, n));
      assert g2 != g ==> Holds(tokens, g2, HeldAddress(kind, n));
    }
  }

  lemma PoolTakesBack(free: seq<nat>, tokens: map<nat, Token>, g: nat, n: nat, kind: Kind)
    requires PoolOk(free, tokens, kind) && Holds(tokens, g, HeldAddress(kind, n))
    ensures PoolOk(free + [n], tokens - {g}, kind)
  {
    var after := tokens - {g};
    forall m | First(kind) <= m <= Last(kind) && m !in free + [n]
      ensures exists k :: Holds(after, k, HeldAddress(kind, m)) {
      var k :| Holds(tokens, k, HeldAddress(kind, m));
      assert Holds(after, k, HeldAddress(kind, m));
    }
    forall k, m: nat | Holds(after, k, HeldAddress(kind, m))
      ensures m !in free + [n] && First(kind) <= m <= Last(kind) {
      assert Holds(tokens, k, HeldAddress(kind, m));
    }
    forall g1, g2, m: nat | Holds(after, g1, HeldAddress(kind, m)) && Holds(after, g2, HeldAddress(kind, m))
      ensures g1 == g2 {
      assert Holds(tokens, g1, HeldAddress(kind, m)) && Holds(tokens, g2, HeldAddress(kind, m));
    }
  }

  /** A change that leaves what each guard holds alone. */
  lemma PhaseStep(h: Host, g: nat, phase: Phase, limits: Limits)
    requires Inv(h, limits) && g in h.tokens
    ensures Inv(h.(tokens := h.tokens[g := h.tokens[g].(phase := phase)]), limits)
  {
    hide BooksOk, PoolOk;
    var after := h.tokens[g := h.tokens[g].(phase := phase)];
    PoolIgnores(h.ips, h.tokens, after, Ip);
    PoolIgnores(h.cids, h.tokens, after, Cid);
    forall id | id in h.accounts.jobs ensures exists k :: Holds(after, k, HeldJob(id, h.accounts.jobs[id])) {
      var k :| Holds(h.tokens, k, HeldJob(id, h.accounts.jobs[id]));
      assert Holds(after, k, HeldJob(id, h.accounts.jobs[id]));
    }
  }

  lemma BooksTake(a: Accounts, id: Uuid, vm: VM, limits: Limits)
    requires BooksOk(a, limits) && id !in a.jobs && Fits(a, vm, limits)
    ensures BooksOk(Allocate(a, id, vm, limits), limits)
  {
    AllocateWithinLimits(a, id, vm, limits);
    hide WithinLimits;
    forall r ensures Counter(Allocate(a, id, vm, limits), r) == Total(Allocate(a, id, vm, limits).jobs, r) {
      AllocateKeepsBooks(a, id, vm, limits, r, 0);
    }
  }

  lemma BooksGive(a: Accounts, id: Uuid, limits: Limits)
    requires BooksOk(a, limits)
    ensures BooksOk(Release(a, id), limits)
  {
    ReleaseWithinLimits(a, id, limits);
    hide WithinLimits;
    forall r ensures Counter(Release(a, id), r) == Total(Release(a, id).jobs, r) {
      ReleaseKeepsBooks(a, id, r, 0);
    }
  }

  lemma JobsTake(jobs: map<Uuid, VM>, tokens: map<nat, Token>, g: nat, id: Uuid, vm: VM)
    requires JobsOk(jobs, tokens) && g !in tokens && id !in jobs
    ensures JobsOk(jobs[id := vm], tokens[g := Token(HeldJob(id, vm), Guarded)])
  {
    var j, t := jobs[id := vm], tokens[g := Token(HeldJob(id, vm), Guarded)];
    forall i | i in j ensures exists k :: Holds(t, k, HeldJob(i, j[i])) {
      if i == id {
        assert Holds(t, g, HeldJob(i, j[i]));
      } else {
        var k :| Holds(tokens, k, HeldJob(i, jobs[i]));
        assert Holds(t, k, HeldJob(i, j[i]));
      }
    }
  }

  lemma JobsGive(jobs: map<Uuid, VM>, tokens: map<nat, Token>, g: nat)
    requires JobsOk(jobs, tokens) && g in tokens
    ensures tokens[g].held.HeldJob? ==> JobsOk(jobs - {tokens[g].held.id}, tokens - {g})
    ensures !tokens[g].held.HeldJob? ==> JobsOk(jobs, tokens - {g})
  {
    var t := tokens - {g};
    forall i | i in jobs && !(tokens[g].held.HeldJob? && tokens[g].held.id == i)
      ensures exists k :: Holds(t, k, HeldJob(i, jobs[i])) {
      var k :| Holds(tokens, k, HeldJob(i, jobs[i]));
      assert Holds(t, k, HeldJob(i, jobs[i]));
    }
  }

  lemma GuardJobStep(h: Host, g: nat, id: Uuid, vm: VM, limits: Limits)
    requires Inv(h, limits) && g !in h.tokens && id !in h.accounts.jobs && Fits(h.accounts, vm, limits)
    ensures Inv(Apply(h, GuardJob(g, id, vm), limits), limits)
  {
    hide BooksOk, PoolOk, JobsOk, Fits;
    var after := h.tokens[g := Token(HeldJob(id, vm), Guarded)];
    BooksTake(h.accounts, id, vm, limits);
    JobsTake(h.accounts.jobs, h.tokens, g, id, vm);
    PoolIgnores(h.ips, h.tokens, after, Ip);
    PoolIgnores(h.cids, h.tokens, after, Cid);
  }

  lemma AddressesAreNoJobs(jobs: map<Uuid, VM>, tokens: map<nat, Token>, g: nat, kind: Kind, n: nat)
    requires JobsOk(jobs, tokens) && g !in tokens
    ensures JobsOk(jobs, tokens[g := Token(HeldAddress(kind, n), Guarded)])
  {
    var t := tokens[g := Token(HeldAddress(kind, n), Guarded)];
    forall i | i in jobs ensures exists k :: Holds(t, k, HeldJob(i, jobs[i])) {
      var k :| Holds(tokens, k, HeldJob(i, jobs[i]));
      assert Holds(t, k, HeldJob(i, jobs[i]));
    }
  }

  lemma GuardAddressStep(h: Host, g: nat, kind: Kind, limits: Limits)
    requires Inv(h, limits) && g !in h.tokens && Free(h, kind) != []
    ensures Inv(Apply(h, GuardAddress(g, kind), limits), limits)
  {
    hide BooksOk, PoolOk, JobsOk;
    var n := Free(h, kind)[0];
    var after := h.tokens[g := Token(HeldAddress(kind, n), Guarded)];
    PoolIssues(Free(h, kind), h.tokens, g, kind);
    if kind.Ip? {
      PoolIgnores(h.cids, h.tokens, after, Cid);
    } else {
      PoolIgnores(h.ips, h.tokens, after, Ip);
    }
    AddressesAreNoJobs(h.accounts.jobs, h.tokens, g, kind, n);
  }

  lemma ReleaseStep(h: Host, g: nat, limits: Limits)
    requires Inv(h, limits) && g in h.tokens && !h.tokens[g].phase.Guarded?
    ensures Inv(Apply(h, RunRelease(g), limits), limits)
  {
    hide BooksOk, PoolOk, JobsOk;
    var after := h.tokens - {g};
    JobsGive(h.accounts.jobs, h.tokens, g);
    match h.tokens[g].held
    case HeldJob(id, _) =>
      BooksGive(h.accounts, id, limits);
      PoolIgnores(h.ips, h.tokens, after, Ip);
      PoolIgnores(h.cids, h.tokens, after, Cid);
      assert Release(h.accounts, id).jobs == h.accounts.jobs - {id};
    case HeldAddress(kind, n) =>
      PoolTakesBack(Free(h, kind), h.tokens, g, n, kind);
      if kind.Ip? {
        PoolIgnores(h.cids, h.tokens, after, Cid);
      } else {
        PoolIgnores(h.ips, h.tokens, after, Ip);
      }
  }

  lemma InitOk(limits: Limits)
    ensures Inv(INIT, limits)
  {
    assert forall n :: n in INIT.ips <==> First(Ip) <= n <= Last(Ip) by {
      forall n: nat | First(Ip) <= n <= Last(Ip) ensures n in INIT.ips {
        assert INIT.ips[n - First(Ip)] == n;
      }
    }
    assert forall n :: n in INIT.cids <==> First(Cid) <= n <= Last(Cid) by {
      forall n: nat | First(Cid) <= n <= Last(Cid) ensures n in INIT.cids {
        assert INIT.cids[n - First(Cid)] == n;
      }
    }
  }

  lemma {:induction false} ReachableInv(run: seq<Action>, limits: Limits)
    requires Valid(run, limits)
    ensures Inv(After(run, limits), limits)
  {
    hide Inv, Fits;
    if run == [] {
      InitOk(limits);
    } else {
      var h := After(run[..|run| - 1], limits);
      ReachableInv(run[..|run| - 1], limits);
      match run[|run| - 1]
      case GuardJob(g, id, vm) =>
        if Fits(h.accounts, vm, limits) {
          GuardJobStep(h, g, id, vm, limits);
        }
      case GuardAddress(g, kind) =>
        if Free(h, kind) != [] {
          GuardAddressStep(h, g, kind, limits);
        }
      case DropGuard(g) => PhaseStep(h, g, Releasing, limits);
      case TakeGuard(g) => PhaseStep(h, g, Loose, limits);
      case RunRelease(g) => ReleaseStep(h, g, limits);
    }
  }

  // ---------- What it is for ----------

  ghost predicate Lives(h: Host, id: Uuid) {
    && id in h.accounts.jobs
    && exists g :: Holds(h.tokens, g, HeldJob(id, h.accounts.jobs[id])) && h.tokens[g].phase.Guarded?
  }

  /** The VMs whose guard is alive. */
  ghost function LiveJobs(h: Host): map<Uuid, VM> {
    map id | id in h.accounts.jobs && Lives(h, id) :: h.accounts.jobs[id]
  }

  lemma {:induction false} SubsetCount(a: set<Uuid>, b: set<Uuid>)
    requires a <= b
    ensures |a| <= |b|
  {
    if a == {} {
    } else {
      var x :| x in a;
      SubsetCount(a - {x}, b - {x});
    }
  }

  /** However many jobs the runner has claimed, the VMs alive at once stay within the limits: their sum is at
      most the counter, and the counter is zero or leaves the reserve. */
  lemma LiveVmsFit(run: seq<Action>, limits: Limits)
    requires Valid(run, limits)
    ensures var h := After(run, limits);
            && WithinLimits(h.accounts, limits)
            && Total(LiveJobs(h), Cpus) <= h.accounts.cpus && Total(LiveJobs(h), Memory) <= h.accounts.memory
            && (limits.maxInstances.Some? ==> |LiveJobs(h)| <= limits.maxInstances.value)
            && forall r :: Counter(h.accounts, r) == Total(h.accounts.jobs, r)
  {
    ReachableInv(run, limits);
    var h := After(run, limits);
    TotalOfPart(LiveJobs(h), h.accounts.jobs, Cpus);
    TotalOfPart(LiveJobs(h), h.accounts.jobs, Memory);
    SubsetCount(LiveJobs(h).Keys, h.accounts.jobs.Keys);
    assert Counter(h.accounts, Cpus) == h.accounts.cpus && Counter(h.accounts, Memory) == h.accounts.memory;
  }

  /** No two guards, pending releases or taken addresses ever share an address, and none of them is free. */
  lemma AddressesAreExclusive(run: seq<Action>, limits: Limits, g1: nat, g2: nat, kind: Kind, n: nat)
    requires Valid(run, limits)
    requires Holds(After(run, limits).tokens, g1, HeldAddress(kind, n))
    requires Holds(After(run, limits).tokens, g2, HeldAddress(kind, n))
    ensures g1 == g2 && n !in Free(After(run, limits), kind) && First(kind) <= n <= Last(kind)
  {
    ReachableInv(run, limits);
    hide BooksOk, JobsOk;
  }

  /** Free, held, being released and taken addresses are all there are. */
  lemma NoAddressIsLost(run: seq<Action>, limits: Limits, kind: Kind, n: nat)
    requires Valid(run, limits)
    ensures First(kind) <= n <= Last(kind) <==>
              n in Free(After(run, limits), kind) ||
              exists g :: Holds(After(run, limits).tokens, g, HeldAddress(kind, n))
    ensures Pools.NoDuplicates(Free(After(run, limits), kind))
  {
    ReachableInv(run, limits);
    hide BooksOk, JobsOk;
  }

  lemma SameRange(s: seq<nat>, t: seq<nat>, kind: Kind)
    requires PoolOk(s, map[], kind) && PoolOk(t, map[], kind)
    ensures multiset(s) == multiset(t)
  {
    Pools.SameElementsArePermutation(s, t);
  }

  /** Once every guard is gone and every release has run, nothing is left allocated and both pools
      hold a permutation of what they started with. */
  lemma IdleHostIsPristine(run: seq<Action>, limits: Limits)
    requires Valid(run, limits) && After(run, limits).tokens == map[]
    ensures After(run, limits).accounts == NO_JOBS
    ensures multiset(After(run, limits).ips) == multiset(INIT.ips)
    ensures multiset(After(run, limits).cids) == multiset(INIT.cids)
  {
    var h := After(run, limits);
    ReachableInv(run, limits);
    InitOk(limits);
    assert h.accounts.jobs == map[];
    assert Counter(h.accounts, Cpus) == 0 && Counter(h.accounts, Memory) == 0;
    hide BooksOk, JobsOk;
    SameRange(h.ips, INIT.ips, Ip);
    SameRange(h.cids, INIT.cids, Cid);
  }

  // ---------- The order of reissue ----------

  predicate IsRelease(h: Host, a: Action, kind: Kind, n: nat) {
    a.RunRelease? && a.g in h.tokens && h.tokens[a.g].held == HeldAddress(kind, n)
  }

  /** What a step does to one pool. */
  function PoolOps(h: Host, a: Action, kind: Kind): seq<Pools.Op> {
    match a
    case GuardAddress(_, k) => if k == kind then [Pools.Issue] else []
    case RunRelease(g) =>
      if g in h.tokens && h.tokens[g].held.HeldAddress? && h.tokens[g].held.kind == kind
      then [Pools.Return(h.tokens[g].held.n)] else []
    case _ => []
  }

  ghost function Projected(run: seq<Action>, limits: Limits, kind: Kind): seq<Pools.Op>
    requires Valid(run, limits)
  {
    if run == [] then []
    else
      var front := run[..|run| - 1];
      Projected(front, limits, kind) + PoolOps(After(front, limits), run[|run| - 1], kind)
  }

  /** The pool's own history during a run of guards, drops and delayed releases. */
  ghost function PoolTrace(run: seq<Action>, limits: Limits, kind: Kind): Pools.Trace
    requires Valid(run, limits)
  {
    Pools.Run(Free(INIT, kind), Projected(run, limits, kind))
  }

  lemma StepProjects(h: Host, a: Action, limits: Limits, kind: Kind, t: Pools.Trace)
    requires Enabled(h, a) && t.free == Free(h, kind)
    ensures var ops := PoolOps(h, a, kind);
            Free(Apply(h, a, limits), kind) == (if ops == [] then t else Pools.Step(t, ops[0])).free
  {
    hide Fits;
  }

  lemma RunAppend(start: seq<nat>, ops: seq<Pools.Op>, more: seq<Pools.Op>)
    requires |more| <= 1
    ensures Pools.Run(start, ops + more) ==
               if more == [] then Pools.Run(start, ops) else Pools.Step(Pools.Run(start, ops), more[0])
  {
    if more == [] {
      assert ops + more == ops;
    } else {
      assert (ops + more)[..|ops|] == ops;
    }
  }

  /** The guards' free queue is that of the pool's history. */
  lemma {:induction false} HostRefinesPool(run: seq<Action>, limits: Limits, kind: Kind)
    requires Valid(run, limits)
    ensures PoolTrace(run, limits, kind).free == Free(After(run, limits), kind)
  {
    hide Enabled, Apply;
    if run == [] {
    } else {
      var front, a := run[..|run| - 1], run[|run| - 1];
      HostRefinesPool(front, limits, kind);
      RunAppend(Free(INIT, kind), Projected(front, limits, kind), PoolOps(After(front, limits), a, kind));
      StepProjects(After(front, limits), a, limits, kind, PoolTrace(front, limits, kind));
    }
  }

  lemma {:induction false} TraceGrows(run: seq<Action>, i: nat, limits: Limits, kind: Kind)
    requires Valid(run, limits) && i <= |run|
    ensures Valid(run[..i], limits)
    ensures PoolTrace(run[..i], limits, kind).issued <= PoolTrace(run, limits, kind).issued
    ensures PoolTrace(run[..i], limits, kind).returned <= PoolTrace(run, limits, kind).returned
    decreases |run|
  {
    hide Enabled, Apply;
    if i == |run| {
      assert run[..i] == run;
    } else {
      var front, a := run[..|run| - 1], run[|run| - 1];
      TraceGrows(front, i, limits, kind);
      assert front[..i] == run[..i];
      RunAppend(Free(INIT, kind), Projected(front, limits, kind), PoolOps(After(front, limits), a, kind));
    }
  }

  lemma ReleaseReturns(run: seq<Action>, i: nat, limits: Limits, kind: Kind, n: nat)
    requires Valid(run, limits) && i < |run|
    requires Valid(run[..i], limits) && IsRelease(After(run[..i], limits), run[i], kind, n)
    ensures PoolTrace(run[..i], limits, kind).returned + [n] <= PoolTrace(run, limits, kind).returned
  {
    hide Enabled, Apply;
    TraceGrows(run, i + 1, limits, kind);
    var r := run[..i + 1];
    assert r[..|r| - 1] == run[..i];
    RunAppend(Free(INIT, kind), Projected(run[..i], limits, kind), [Pools.Return(n)]);
  }

  lemma SharedPrefix(early: seq<nat>, late: seq<nat>, out: seq<nat>, issued: seq<nat>, free: seq<nat>, n: nat)
    requires early == out && early + [n] <= late && late == issued + free
    ensures |issued| > |out| ==> issued[..|out|] == out && issued[|out|] == n
  {
    if |issued| > |out| {
      assert issued[..|out| + 1] == late[..|out| + 1] == early + [n];
      assert issued[..|out|] == issued[..|out| + 1][..|out|];
    }
  }

  /** An address whose release runs at step i is issued next after exactly the addresses free at that time, in their
      order, however guards are taken, dropped and released in between. */
  lemma ReissuedInTurn(run: seq<Action>, i: nat, limits: Limits, kind: Kind, n: nat)
    requires Valid(run, limits) && i < |run|
    requires Valid(run[..i], limits) && IsRelease(After(run[..i], limits), run[i], kind, n)
    ensures var free := Free(After(run[..i], limits), kind);
            var before, issued := |PoolTrace(run[..i], limits, kind).issued|, PoolTrace(run, limits, kind).issued;
            before <= |issued| &&
            (|issued| > before + |free| ==> issued[before..before + |free|] == free && issued[before + |free|] == n)
  {
    hide Enabled, Apply, Pools.Run;
    var start, at, end := Free(INIT, kind), PoolTrace(run[..i], limits, kind), PoolTrace(run, limits, kind);
    ReleaseReturns(run, i, limits, kind, n);
    TraceGrows(run, i, limits, kind);
    HostRefinesPool(run[..i], limits, kind);
    Pools.FirstInFirstOut(start, Projected(run[..i], limits, kind));
    Pools.FirstInFirstOut(start, Projected(run, limits, kind));
    SharedPrefix(start + at.returned, start + end.returned, at.issued + at.free, end.issued, end.free, n);
  }

  // ---------- Creating a VM ----------

  /** The first `count` of a VM's three acquisitions, their guards in this phase. */
  function Acquired(h: Host, g: nat, id: Uuid, vm: VM, count: nat, phase: Phase, limits: Limits): Host
    requires (count >= 2 ==> h.ips != []) && (count >= 3 ==> h.cids != [])
  {
    var one := if count >= 1
               then h.(accounts := Allocate(h.accounts, id, vm, limits),
                        tokens := h.tokens[g := Token(HeldJob(id, vm), phase)])
               else h;
    var two := if count >= 2
               then one.(ips := h.ips[1..], tokens := one.tokens[g + 1 := Token(HeldAddress(Ip, h.ips[0]), phase)])
               else one;
    if count >= 3
    then two.(cids := h.cids[1..], tokens := two.tokens[g + 2 := Token(HeldAddress(Cid, h.cids[0]), phase)])
    else two
  }

  lemma AcquiredInTurn(h: Host, g: nat, id: Uuid, vm: VM, limits: Limits)
    requires Inv(h, limits) && id !in h.accounts.jobs && forall k | k in h.tokens :: k < g
    ensures Acquired(h, g, id, vm, 0, Releasing, limits) == h
    ensures Fits(h.accounts, vm, limits) ==>
              Acquired(h, g, id, vm, 1, Guarded, limits) == Apply(h, GuardJob(g, id, vm), limits)
    ensures h.ips != [] ==>
              var one := Acquired(h, g, id, vm, 1, Guarded, limits);
              g + 1 !in one.tokens && one.ips == h.ips && one.cids == h.cids
              && Acquired(h, g, id, vm, 2, Guarded, limits) == Apply(one, GuardAddress(g + 1, Ip), limits)
    ensures h.ips != [] && h.cids != [] ==>
              var two := Acquired(h, g, id, vm, 2, Guarded, limits);
              g + 2 !in two.tokens && two.cids == h.cids
              && Acquired(h, g, id, vm, 3, Guarded, limits) == Apply(two, GuardAddress(g + 2, Cid), limits)
  {
    hide Inv, Fits, Allocate;
  }

  function Dropped(h: Host, g: nat): (after: Host)
    requires g in h.tokens
    ensures after.tokens.Keys == h.tokens.Keys
  {
    h.(tokens := h.tokens[g := h.tokens[g].(phase := Releasing)])
  }

  predicate GuardLives(h: Host, g: nat) {
    g in h.tokens && h.tokens[g].phase.Guarded?
  }

  /** Dropping the guards in reverse order leaves all of them releasing. */
  lemma DropAll(h: Host, g: nat, id: Uuid, vm: VM, limits: Limits)
    ensures var one := Acquired(h, g, id, vm, 1, Guarded, limits);
            GuardLives(one, g) && Dropped(one, g) == Acquired(h, g, id, vm, 1, Releasing, limits)
    ensures h.ips != [] ==>
              var two := Acquired(h, g, id, vm, 2, Guarded, limits);
              GuardLives(two, g + 1) && GuardLives(Dropped(two, g + 1), g)
              && Dropped(Dropped(two, g + 1), g) == Acquired(h, g, id, vm, 2, Releasing, limits)
    ensures h.ips != [] && h.cids != [] ==>
              var three := Acquired(h, g, id, vm, 3, Guarded, limits);
              GuardLives(three, g + 2) && GuardLives(Dropped(three, g + 2), g + 1)
              && GuardLives(Dropped(Dropped(three, g + 2), g + 1), g)
              && Dropped(Dropped(Dropped(three, g + 2), g + 1), g) == Acquired(h, g, id, vm, 3, Releasing, limits)
  {
    hide Allocate;
  }

  /** The guards a VM under construction owns are dropped together when its construction fails. */
  class VmStore {
    const resources: ResourceManager
    const ips: Pools.Pool
    const cids: Pools.Pool
    var tokens: map<nat, Token>
    var guards: nat

    function View(): Host
      reads this, resources, ips, cids
    {
      Host(resources.View(), ips.free, cids.free, tokens)
    }

    ghost predicate Valid()
      reads this, resources, ips, cids
    {
      ips != cids && Inv(View(), resources.limits) && forall g | g in tokens :: g < guards
    }

    constructor (limits: Limits)
      ensures Valid() && View() == INIT && resources.limits == limits
      ensures fresh(resources) && fresh(ips) && fresh(cids)
    {
      resources := new ResourceManager(limits);
      ips := new Pools.Pool(Pools.FIRST_IP, Pools.LAST_IP);
      cids := new Pools.Pool(Pools.FIRST_CID, Pools.LAST_CID);
      tokens, guards := map[], 0;
      new;
      InitOk(limits);
    }

    method NewJobGuard(id: Uuid, vm: VM) returns (g: Option<nat>)
      requires Valid() && id !in resources.jobs
      modifies this, resources
      ensures Valid() && View() == Apply(old(View()), GuardJob(old(guards), id, vm), resources.limits)
      ensures g == if Fits(old(resources.View()), vm, resources.limits) then Some(old(guards)) else None
      ensures guards == old(guards) + if g.Some? then 1 else 0
    {
      ghost var before := View();
      var result := resources.AllocateResources(id, vm);
      if result.Rejected? {
        assert View() == before;
        return None;
      }
      GuardJobStep(before, guards, id, vm, resources.limits);
      g := Some(guards);
      tokens, guards := tokens[guards := Token(HeldJob(id, vm), Guarded)], guards + 1;
      assert View() == Apply(before, GuardJob(g.value, id, vm), resources.limits);
    }

    method NewAddressGuard(kind: Kind) returns (g: Option<nat>)
      requires Valid()
      modifies this, ips, cids
      ensures Valid() && View() == Apply(old(View()), GuardAddress(old(guards), kind), resources.limits)
      ensures g == if old(Free(View(), kind)) != [] then Some(old(guards)) else None
      ensures guards == old(guards) + if g.Some? then 1 else 0
    {
      ghost var before := View();
      var n;
      if kind.Ip? {
        n := ips.Allocate();
      } else {
        n := cids.Allocate();
      }
      if n.None? {
        assert View() == before;
        return None;
      }
      GuardAddressStep(before, guards, kind, resources.limits);
      g := Some(guards);
      tokens, guards := tokens[guards := Token(HeldAddress(kind, n.value), Guarded)], guards + 1;
      assert View() == Apply(before, GuardAddress(g.value, kind), resources.limits);
    }

    /** Spawns the release; nothing is free before that has run. */
    method Drop(g: nat)
      requires Valid() && GuardLives(View(), g)
      modifies this
      ensures Valid() && guards == old(guards) && View() == Dropped(old(View()), g)
      ensures Dropped(old(View()), g) == Apply(old(View()), DropGuard(g), resources.limits)
    {
      PhaseStep(View(), g, Releasing, resources.limits);
      tokens := tokens[g := tokens[g].(phase := Releasing)];
    }

    /** Hands over what the guard holds and disarms it. */
    method Take(g: nat) returns (held: Held)
      requires Valid() && GuardLives(View(), g)
      modifies this
      ensures Valid() && guards == old(guards) && held == old(tokens)[g].held
      ensures g in tokens && tokens[g] == Token(held, Loose)
      ensures View() == Apply(old(View()), TakeGuard(g), resources.limits)
    {
      PhaseStep(View(), g, Loose, resources.limits);
      held := tokens[g].held;
      tokens := tokens[g := tokens[g].(phase := Loose)];
    }

    method FinishRelease(g: nat)
      requires Valid() && g in tokens && !tokens[g].phase.Guarded?
      modifies this, resources, ips, cids
      ensures Valid() && View() == Apply(old(View()), RunRelease(g), resources.limits)
    {
      hide Inv;
      ReleaseStep(View(), g, resources.limits);
      match tokens[g].held {
        case HeldJob(id, _) =>
          var _ := resources.ReleaseJob(id);
        case HeldAddress(kind, n) =>
          if kind.Ip? {
            ips.Release(n);
          } else {
            cids.Release(n);
          }
      }
      tokens := tokens - {g};
    }

    lemma KnownHost()
      requires Valid()
      ensures Inv(View(), resources.limits) && forall k | k in View().tokens :: k < guards
    {
    }

    /** Resources first, then files and processes, then the address and the context id, then the VM itself.
        On failure at any point exactly the guards acquired so far start to release; on success all three live. */
    method NewVm(id: Uuid, vm: VM, setupFails: bool, bootFails: bool) returns (created: bool)
      requires Valid() && id !in resources.jobs
      modifies this, resources, ips, cids
      ensures Valid()
      ensures created <==> Fits(old(resources.View()), vm, resources.limits) && !setupFails
                           && old(ips.free) != [] && old(cids.free) != [] && !bootFails
      ensures created ==> View() == Acquired(old(View()), old(guards), id, vm, 3, Guarded, resources.limits)
      ensures !created ==> View() == Acquired(old(View()), old(guards), id, vm,
                                              if !Fits(old(resources.View()), vm, resources.limits) then 0
                                              else if setupFails || old(ips.free) == [] then 1
                                              else if old(cids.free) == [] then 2
                                              else 3, Releasing, resources.limits)
    {
      hide Inv, Fits, Acquired, Dropped, Allocate, VmStore.Valid;
      KnownHost();
      AcquiredInTurn(View(), guards, id, vm, resources.limits);
      DropAll(View(), guards, id, vm, resources.limits);
      var job := NewJobGuard(id, vm);
      if job.None? {
        return false;
      }
      if setupFails {
        Drop(job.value);
        return false;
      }
      var ip := NewAddressGuard(Ip);
      if ip.None? {
        Drop(job.value);
        return false;
      }
      var cid := NewAddressGuard(Cid);
      if cid.None? || bootFails {
        if cid.Some? {
          Drop(cid.value);
        }
        Drop(ip.value);
        Drop(job.value);
        return false;
      }
      created := true;
    }
  }
}
