/** The pool of IO loops, which serves new connections in turn, and the server's side of a
    connection: its name and its place in the connection map. Loop 0 is the base loop. */
module Server {
  import opened Naming

  // ---------------------------------------------------------------- balanced assignment

  /** The loop `getNextLoop` returns on its k-th call, counted from 0, with `n` threads. */
  function Turn(k: nat, n: nat): nat {
    if n == 0 then 0 else 1 + k % n
  }

  /** How many of the first `k` connections went to loop `l`. */
  function Received(k: nat, n: nat, l: nat): nat {
    if k == 0 then 0 else Received(k - 1, n, l) + if Turn(k - 1, n) == l then 1 else 0
  }

  /** Zero is the only multiple of `n` between -n and n. */
  lemma MultipleInRange(d: int, n: int)
    requires -n < d * n < n
    ensures d == 0
  {
  }

  lemma DivModUnique(k: nat, n: nat, q: int, r: int)
    requires n > 0 && 0 <= r < n && k == q * n + r
    ensures k / n == q && k % n == r
  {
    var d := k / n - q;
    assert k == k / n * n + k % n;
    assert d * n == r - k % n;
    MultipleInRange(d, n);
  }

  /** One call moves quotient and remainder on together. */
  lemma DivModNext(k: nat, n: nat)
    requires n > 0
    ensures if k % n + 1 < n then (k + 1) / n == k / n && (k + 1) % n == k % n + 1
            else (k + 1) / n == k / n + 1 && (k + 1) % n == 0
  {
    var q, r := k / n, k % n;
    assert k == q * n + r;
    if r + 1 < n {
      DivModUnique(k + 1, n, q, r + 1);
    } else {
      assert (q + 1) * n == q * n + n;
      DivModUnique(k + 1, n, q + 1, 0);
    }
  }

  /** After any number of connections every IO loop has received the quotient or one more, and
      the ones with one more are the first of the pool. */
  lemma {:induction false} AssignmentIsBalanced(k: nat, n: nat, l: nat)
    requires 1 <= l <= n
    ensures Received(k, n, l) == k / n + if l - 1 < k % n then 1 else 0
  {
    if k == 0 {
      DivModUnique(0, n, 0, 0);
    } else {
      AssignmentIsBalanced(k - 1, n, l);
      DivModNext(k - 1, n);
    }
  }

  /** The base loop gets all connections if there are no threads, and none otherwise. */
  lemma {:induction false} BaseLoopServesIff(k: nat, n: nat)
    ensures Received(k, n, 0) == if n == 0 then k else 0
  {
    if k > 0 {
      BaseLoopServesIff(k - 1, n);
    }
  }

  // ---------------------------------------------------------------- the classes

  class EventLoopThreadPool {
    var numThreads: nat
    var loops: seq<nat>
    var nextIndex: nat
    var started: bool
    ghost var served: nat  // how many connections have been given a loop

    constructor ()
      ensures Valid() && !started && numThreads == 0 && served == 0
    {
      numThreads, loops, nextIndex, started, served := 0, [], 0, false, 0;
    }

    ghost predicate Valid()
      reads this
    {
      && |loops| == (if started then numThreads else 0)
      && (forall i :: 0 <= i < |loops| ==> loops[i] == 1 + i)
      && (if loops == [] then nextIndex == 0 else nextIndex == served % |loops|)
      && (!started ==> served == 0)
    }

    method SetThreadNums(num: nat)
      requires Valid() && !started
      modifies this`numThreads
      ensures Valid() && numThreads == num
    {
      numThreads := num;
    }

    method Start()
      requires Valid() && !started
      modifies this`started, this`loops
      ensures Valid() && started
    {
      started := true;
      for i := 0 to numThreads
        invariant started && served == 0 && nextIndex == 0
        invariant |loops| == i && forall j :: 0 <= j < i ==> loops[j] == 1 + j
      {
        loops := loops + [1 + i];
      }
      if numThreads > 0 {
        DivModUnique(0, numThreads, 0, 0);
      }
    }

    method GetNextLoop() returns (ret: nat)
      requires Valid() && started
      modifies this`nextIndex, this`served
      ensures Valid() && served == old(served) + 1
      ensures ret == Turn(old(served), numThreads)
    {
      served := served + 1;
      if numThreads == 0 {
        return 0;
      }
      ret := loops[nextIndex];
      DivModNext(served - 1, |loops|);
      if nextIndex + 1 == |loops| {
        DivModUnique(nextIndex + 1, |loops|, 1, 0);
      } else {
        DivModUnique(nextIndex + 1, |loops|, 0, nextIndex + 1);
      }
      nextIndex := (nextIndex + 1) % |loops|;
    }
  }

  class TcpServer {
    const name: string
    const threadPool: EventLoopThreadPool
    var connections: map<string, nat>  // connections_, each by its index
    var connectionIndex: nat

    constructor (name: string, threadPool: EventLoopThreadPool)
      ensures this.name == name && this.threadPool == threadPool && Valid() && connections == map[]
    {
      this.name, this.threadPool := name, threadPool;
      connections, connectionIndex := map[], 0;
    }

    /** Every registered connection is found under its own name. */
    ghost predicate Valid()
      reads this
    {
      forall key :: key in connections ==>
        connections[key] < connectionIndex && key == ConnName(name, connections[key])
    }

    /** The new connection is registered under a name nobody has, whatever was removed before. */
    method OnNewConnection() returns (c: nat, io: nat)
      requires Valid() && threadPool.Valid() && threadPool.started
      modifies this`connections, this`connectionIndex, threadPool`nextIndex, threadPool`served
      ensures Valid() && threadPool.Valid()
      ensures c == old(connectionIndex) && connectionIndex == c + 1
      ensures ConnName(name, c) !in old(connections) && connections == Entered(old(connections), name, c)
      ensures threadPool.served == old(threadPool.served) + 1
      ensures io == Turn(old(threadPool.served), threadPool.numThreads)
    {
      c := connectionIndex;
      if ConnName(name, c) in connections {
        NamesDistinct(name, c, connections[ConnName(name, c)]);
      }
      connectionIndex := connectionIndex + 1;
      io := threadPool.GetNextLoop();
      connections := Entered(connections, name, c);
    }

    /** What the assertion of the source looks at: how many entries went away. */
    method RemoveConnectionInLoop(c: nat) returns (erasedNum: nat)
      requires Valid()
      modifies this`connections
      ensures Valid() && connections == Erased(old(connections), name, c)
      ensures erasedNum == 1 <==> c in old(connections).Values
    {
      erasedNum := if ConnName(name, c) in connections then 1 else 0;
      if exists key :: key in connections && connections[key] == c {
        ghost var key :| key in connections && connections[key] == c;
        assert key == ConnName(name, c);
      }
      if erasedNum == 1 {
        NamesDistinct(name, c, connections[ConnName(name, c)]);
      }
      connections := Erased(connections, name, c);
    }
  }
}
