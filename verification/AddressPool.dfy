/** The queues of free IP addresses and vsock context ids. */
module AddressPool {
  import opened Protocol

  /** Last octets of 10.0.0.2 to 10.0.0.254, and the guest context ids 3 to 1024. */
  const FIRST_IP: nat := 2
  const LAST_IP: nat := 254
  const FIRST_CID: nat := 3
  const LAST_CID: nat := 1024

  function Range(first: nat, last: nat): seq<nat> {
    if last < first then [] else seq(last - first + 1, i => first + i)
  }

  ghost predicate NoDuplicates(s: seq<nat>) {
    forall i, j | 0 <= i < j < |s| :: s[i] != s[j]
  }

  lemma {:induction false} CountedOnce(s: seq<nat>, n: nat)
    requires NoDuplicates(s)
    ensures multiset(s)[n] == if n in s then 1 else 0
  {
    if s == [] {
    } else {
      assert s == [s[0]] + s[1..];
      CountedOnce(s[1..], n);
    }
  }

  lemma SameElementsArePermutation(s: seq<nat>, t: seq<nat>)
    requires NoDuplicates(s) && NoDuplicates(t) && forall n :: n in s <==> n in t
    ensures multiset(s) == multiset(t)
  {
    forall n: nat ensures multiset(s)[n] == multiset(t)[n] {
      CountedOnce(s, n);
      CountedOnce(t, n);
    }
  }

  /** 253 addresses, from 10.0.0.2 to 10.0.0.254, and 1022 context ids, from 3 to 1024. */
  lemma PoolContents()
    ensures |Range(FIRST_IP, LAST_IP)| == 253 && |Range(FIRST_CID, LAST_CID)| == 1022
    ensures forall i | 0 <= i < 253 :: Range(FIRST_IP, LAST_IP)[i] == 2 + i
    ensures forall i | 0 <= i < 1022 :: Range(FIRST_CID, LAST_CID)[i] == 3 + i
  {
  }

  // ---------- First in, first out ----------

  datatype Op = Issue | Return(n: nat)

  datatype Trace = Trace(free: seq<nat>, issued: seq<nat>, returned: seq<nat>)

  /** An empty pool issues nothing. */
  function Step(t: Trace, op: Op): Trace {
    match op
    case Issue => if t.free == [] then t else Trace(t.free[1..], t.issued + [t.free[0]], t.returned)
    case Return(n) => Trace(t.free + [n], t.issued, t.returned + [n])
  }

  function Run(start: seq<nat>, ops: seq<Op>): Trace {
    if ops == [] then Trace(start, [], []) else Step(Run(start, ops[..|ops| - 1]), ops[|ops| - 1])
  }

  /** What went in, in order, is what came out, in order, followed by what is still queued: an address
      is reissued only after everything queued ahead of it. */
  lemma {:induction false} FirstInFirstOut(start: seq<nat>, ops: seq<Op>)
    ensures start + Run(start, ops).returned == Run(start, ops).issued + Run(start, ops).free
  {
    if ops == [] {
      assert start + [] == [] + start;
    } else {
      var t := Run(start, ops[..|ops| - 1]);
      FirstInFirstOut(start, ops[..|ops| - 1]);
      match ops[|ops| - 1]
      case Issue =>
        if t.free != [] {
          assert t.free == [t.free[0]] + t.free[1..];
          assert t.issued + t.free == t.issued + [t.free[0]] + t.free[1..];
        }
      case Return(n) =>
        assert start + (t.returned + [n]) == start + t.returned + [n];
    }
  }

  /** In particular an address returned now is the one issued after exactly as many others as were queued. */
  lemma ReissuedInTurn(start: seq<nat>, n: nat, later: seq<Op>)
    requires |Run(start + [n], later).issued| > |start|
    ensures Run(start + [n], later).issued[|start|] == n
    ensures Run(start + [n], later).issued[..|start|] == start
  {
    FirstInFirstOut(start + [n], later);
    var t := Run(start + [n], later);
    assert (start + [n] + t.returned)[..|start| + 1] == (t.issued + t.free)[..|start| + 1];
    assert forall i | 0 <= i <= |start| :: (start + [n] + t.returned)[i] == t.issued[i];
  }

  class Pool {
    var free: seq<nat>

    constructor (first: nat, last: nat)
      ensures free == Range(first, last)
    {
      var queue: seq<nat> := [];
      var n := first;
      while n <= last
        invariant first <= n && (n <= last + 1 || queue == [])
        invariant queue == if n == first then [] else Range(first, n - 1)
        decreases last + 1 - n
      {
        queue := queue + [n];
        n := n + 1;
      }
      free := queue;
    }

    method Allocate() returns (n: Option<nat>)
      modifies this
      ensures n.None? <==> old(free) == []
      ensures n.Some? ==> old(free) == [n.value] + free
      ensures n.None? ==> free == []
    {
      if free == [] {
        return None;
      }
      n := Some(free[0]);
      free := free[1..];
    }

    method Release(n: nat)
      modifies this
      ensures free == old(free) + [n]
    {
      free := free + [n];
    }
  }
}
