/** What every run of the timer queue keeps: no timer is lost, none runs early or twice, and
    the timerfd is armed for the earliest. */
module TimerSafety {
  import opened Timers

  // ---------------------------------------------------------------- the invariant

  /** `flight` is the batch `handleRead` has taken out. Its first `k` timers have run and are
      not inserted again yet; between operations it is empty. */
  ghost predicate KeysInv(q: Queue, flight: seq<Entry>, now: int) {
    && Sorted(q.timers)
    && (forall x :: x in q.timers ==> x.addr in q.heap && q.heap[x.addr].expiration == x.when)
    && (forall a :: a in q.heap ==> a < UINTPTR_MAX)
    && (forall i :: 0 <= i < |flight| ==>
          flight[i].addr in q.heap && q.heap[flight[i].addr].expiration == flight[i].when <= now)
    && (forall i, j :: 0 <= i < j < |flight| ==> flight[i].addr != flight[j].addr)
    && (forall i, x :: 0 <= i < |flight| && x in q.timers ==> x.addr != flight[i].addr)
  }

  function EntryOf(q: Queue, a: nat): Entry
    requires a in q.heap
  {
    Entry(q.heap[a].expiration, a)
  }

  /** Timer `a` still has a call of its callback to come. */
  predicate Waits(q: Queue, flight: seq<Entry>, k: nat, a: nat)
    requires a in q.heap && k <= |flight|
  {
    EntryOf(q, a) in q.timers || EntryOf(q, a) in flight[k..]
  }

  ghost predicate HasRun(runs: seq<Run>, a: nat) {
    exists i :: 0 <= i < |runs| && runs[i].addr == a
  }

  /** Conservation: no periodic timer is ever lost, and a one-shot timer waits until it runs. */
  ghost predicate KeptInv(q: Queue, flight: seq<Entry>, k: nat)
    requires k <= |flight|
  {
    forall a :: a in q.heap ==>
      if q.heap[a].repeat then Waits(q, flight, k, a) || EntryOf(q, a) in flight[..k]
      else Waits(q, flight, k, a) <==> !HasRun(q.runs, a)
  }

  /** Not before `start`, and not before the interval since any earlier call has passed. */
  ghost predicate Due(q: Queue, a: nat, time: int)
    requires a in q.heap
  {
    && q.heap[a].start <= time
    && forall i :: 0 <= i < |q.runs| && q.runs[i].addr == a ==> q.runs[i].now + q.heap[a].interval <= time
  }

  /** The calls that were made: none early, successive ones apart, and one-shot timers once. */
  ghost predicate RunsInv(q: Queue) {
    && (forall i :: 0 <= i < |q.runs| ==> q.runs[i].addr in q.heap && q.heap[q.runs[i].addr].start <= q.runs[i].now)
    && (forall i, j :: 0 <= i < j < |q.runs| && q.runs[i].addr == q.runs[j].addr && q.runs[i].addr in q.heap ==>
          q.heap[q.runs[i].addr].repeat && q.runs[i].now + q.heap[q.runs[i].addr].interval <= q.runs[j].now)
  }

  ghost predicate DueInv(q: Queue, flight: seq<Entry>, k: nat, now: int)
    requires k <= |flight|
  {
    && (forall a :: a in q.heap && Waits(q, flight, k, a) ==> Due(q, a, q.heap[a].expiration))
    && (forall i :: 0 <= i < k ==> flight[i].addr in q.heap ==> Settled(q, flight[i].addr, now))
  }

  /** Timer `a` has run, at `now` for the last time. */
  ghost predicate Settled(q: Queue, a: nat, now: int)
    requires a in q.heap
  {
    q.heap[a].start <= now && forall i :: 0 <= i < |q.runs| && q.runs[i].addr == a ==> q.runs[i].now <= now
  }

  ghost predicate FlightInv(q: Queue, flight: seq<Entry>, k: nat, now: int) {
    k <= |flight| && KeysInv(q, flight, now) && KeptInv(q, flight, k) && RunsInv(q) && DueInv(q, flight, k, now)
  }

  ghost predicate TimerInv(q: Queue) {
    FlightInv(q, [], 0, 0)
  }

  /** The timerfd is armed for the earliest timer, if that is a valid time. */
  predicate ArmedForFirst(q: Queue) {
    q.timers != [] && q.timers[0].when > 0 ==> q.armed.Armed? && q.armed.when == q.timers[0].when
  }

  lemma DeadlineIsEarliest(q: Queue)
    requires ArmedForFirst(q) && q.timers != [] && q.timers[0].when > 0
    ensures q.armed.Armed? && Deadline(q.armed) == Max(q.timers[0].when, q.armed.at + 100)
  {
  }

  // ---------------------------------------------------------------- one timer added

  /** `addTimer` adds one timer and one entry, and changes nothing else. */
  lemma AddShape(q: Queue, o: Order, flight: seq<Entry>, k: nat, now: int)
    requires FlightInv(q, flight, k, now) && OrderOk(q, o)
    ensures var q', e := Created(q, o), Entry(o.when, o.addr);
            && q'.runs == q.runs && q'.heap == q.heap[o.addr := Ordered(o)]
            && Sorted(q'.timers) && (forall x :: x in q'.timers <==> x in q.timers || x == e)
            && EntryOf(q', o.addr) == e && !HasRun(q.runs, o.addr)
            && (forall a :: a in q.heap ==>
                  EntryOf(q', a) == EntryOf(q, a) != e && Waits(q', flight, k, a) == Waits(q, flight, k, a))
  {
    InsertedKeepsOrder(q.timers, Entry(o.when, o.addr));
    hide KeptInv, DueInv;
  }

  lemma AddKeepsKeys(q: Queue, o: Order, flight: seq<Entry>, k: nat, now: int)
    requires FlightInv(q, flight, k, now) && OrderOk(q, o)
    ensures KeysInv(Created(q, o), flight, now)
  {
    AddShape(q, o, flight, k, now);
    hide Created, KeptInv, DueInv, RunsInv, Waits;
  }

  lemma AddKeepsKept(q: Queue, o: Order, flight: seq<Entry>, k: nat, now: int)
    requires FlightInv(q, flight, k, now) && OrderOk(q, o)
    ensures KeptInv(Created(q, o), flight, k)
  {
    AddShape(q, o, flight, k, now);
    assert Waits(Created(q, o), flight, k, o.addr);
    hide Created, KeysInv, DueInv, RunsInv, Waits;
  }

  lemma AddKeepsDue(q: Queue, o: Order, flight: seq<Entry>, k: nat, now: int)
    requires FlightInv(q, flight, k, now) && OrderOk(q, o)
    ensures RunsInv(Created(q, o)) && DueInv(Created(q, o), flight, k, now)
  {
    AddShape(q, o, flight, k, now);
    hide Created, KeysInv, KeptInv, Waits;
  }

  lemma AddKeeps(q: Queue, o: Order, flight: seq<Entry>, k: nat, now: int)
    requires FlightInv(q, flight, k, now) && OrderOk(q, o)
    ensures FlightInv(Created(q, o), flight, k, now)
  {
    AddKeepsKeys(q, o, flight, k, now);
    AddKeepsKept(q, o, flight, k, now);
    AddKeepsDue(q, o, flight, k, now);
    hide KeysInv, KeptInv, RunsInv, DueInv;
  }

  lemma AddKeepsArmed(q: Queue, o: Order)
    requires TimerInv(q) && ArmedForFirst(q) && OrderOk(q, o)
    ensures ArmedForFirst(Created(q, o))
    ensures Created(q, o).armed ==
            if q.timers == [] || o.when < q.timers[0].when then Armed(o.at, o.when) else q.armed
  {
  }

  lemma {:induction false} AddAllAllocates(q: Queue, orders: seq<Order>)
    ensures forall a :: a in CreatedAll(q, orders).heap ==>
      a in q.heap || exists i :: 0 <= i < |orders| && orders[i].addr == a
  {
    if orders != [] {
      var n := |orders| - 1;
      AddAllAllocates(q, orders[..n]);
      assert forall i :: 0 <= i < n ==> orders[..n][i] == orders[i];
      assert orders[n].addr == orders[n].addr;
    }
  }

  lemma {:induction false} AddAllKeeps(q: Queue, orders: seq<Order>, flight: seq<Entry>, k: nat, now: int)
    requires FlightInv(q, flight, k, now) && OrdersOk(q, orders)
    ensures FlightInv(CreatedAll(q, orders), flight, k, now)
  {
    if orders != [] {
      var n := |orders| - 1;
      hide FlightInv;
      AddAllKeeps(q, orders[..n], flight, k, now);
      AddAllAllocates(q, orders[..n]);
      AddKeeps(CreatedAll(q, orders[..n]), orders[n], flight, k, now);
    }
  }

  // ---------------------------------------------------------------- one handleRead

  lemma TakeKeepsKeys(q: Queue, now: int)
    requires TimerInv(q)
    ensures KeysInv(Remaining(q, now), Batch(q, now), now)
  {
    ExpiredAreDue(q.timers, now);
    hide KeptInv, RunsInv, DueInv, ExpiredCount;
    var n := ExpiredCount(q.timers, now);
    assert forall i :: 0 <= i < n ==> Batch(q, now)[i] == q.timers[i] && q.timers[i] in q.timers;
    forall i, x | 0 <= i < n && x in q.timers[n..]
      ensures x.addr != q.timers[i].addr
    {
      var j :| n <= j < |q.timers| && q.timers[j] == x;
      assert Before(q.timers[i], q.timers[j]) && q.timers[j] in q.timers;
    }
    forall i, j | 0 <= i < j < n
      ensures q.timers[i].addr != q.timers[j].addr
    {
      assert Before(q.timers[i], q.timers[j]);
    }
  }

  lemma TakeKeepsDue(q: Queue, now: int)
    requires TimerInv(q)
    ensures KeptInv(Remaining(q, now), Batch(q, now), 0) && RunsInv(Remaining(q, now))
    ensures DueInv(Remaining(q, now), Batch(q, now), 0, now)
  {
  }

  lemma TakeKeeps(q: Queue, now: int)
    requires TimerInv(q)
    ensures FlightInv(Remaining(q, now), Batch(q, now), 0, now)
  {
    TakeKeepsKeys(q, now);
    TakeKeepsDue(q, now);
    hide KeysInv, KeptInv, RunsInv, DueInv;
  }

  /** The queue after the callback of `flight[k]` was called. */
  function Called(q: Queue, flight: seq<Entry>, k: nat, now: int): Queue
    requires k < |flight|
  {
    q.(runs := q.runs + [Run(flight[k].addr, now)])
  }

  lemma RunKeepsKept(q: Queue, flight: seq<Entry>, k: nat, now: int)
    requires FlightInv(q, flight, k, now) && k < |flight|
    ensures KeptInv(Called(q, flight, k, now), flight, k + 1)
  {
    var q', b := Called(q, flight, k, now), flight[k].addr;
    assert flight[k..] == [flight[k]] + flight[k + 1..] && flight[..k + 1] == flight[..k] + [flight[k]];
    assert q'.runs[|q.runs|].addr == b && HasRun(q'.runs, b);
    forall a | a in q.heap && a != b
      ensures HasRun(q'.runs, a) == HasRun(q.runs, a)
    {
      if HasRun(q'.runs, a) {
        var i :| 0 <= i < |q'.runs| && q'.runs[i].addr == a;
        assert q.runs[i].addr == a;
      }
      if HasRun(q.runs, a) {
        var i :| 0 <= i < |q.runs| && q.runs[i].addr == a;
        assert q'.runs[i].addr == a;
      }
    }
    assert EntryOf(q, b) == flight[k];
    assert flight[k] !in q.timers;
    assert flight[k] !in flight[k + 1..];
  }

  lemma RunKeepsRuns(q: Queue, flight: seq<Entry>, k: nat, now: int)
    requires FlightInv(q, flight, k, now) && k < |flight|
    ensures RunsInv(Called(q, flight, k, now))
  {
  }

  lemma RunKeepsDue(q: Queue, flight: seq<Entry>, k: nat, now: int)
    requires FlightInv(q, flight, k, now) && k < |flight|
    ensures DueInv(Called(q, flight, k, now), flight, k + 1, now)
  {
  }

  lemma RunKeeps(q: Queue, flight: seq<Entry>, k: nat, now: int)
    requires FlightInv(q, flight, k, now) && k < |flight|
    ensures FlightInv(Called(q, flight, k, now), flight, k + 1, now)
  {
    RunKeepsKept(q, flight, k, now);
    RunKeepsRuns(q, flight, k, now);
    RunKeepsDue(q, flight, k, now);
    hide KeptInv, RunsInv, DueInv;
  }

  /** `restart` changes one timer, and only its expiration. */
  lemma RestartShape(q: Queue, flight: seq<Entry>, now: int)
    requires flight != [] && FlightInv(q, flight, |flight|, now) && q.heap[flight[0].addr].repeat
    ensures var b, q' := flight[0].addr, Restarted(q, flight[0].addr, now);
            && q'.runs == q.runs && q'.heap.Keys == q.heap.Keys && EntryOf(q', b) == Entry(now + q.heap[b].interval, b)
            && q'.heap[b] == q.heap[b].(expiration := now + q.heap[b].interval)
            && (forall a :: a in q.heap && a != b ==> q'.heap[a] == q.heap[a] && EntryOf(q', a) == EntryOf(q, a))
            && Sorted(q'.timers) && (forall x :: x in q'.timers <==> x in q.timers || x == EntryOf(q', b))
  {
    InsertedKeepsOrder(q.timers, Entry(now + q.heap[flight[0].addr].interval, flight[0].addr));
  }

  lemma RestartKeepsKept(q: Queue, flight: seq<Entry>, now: int)
    requires flight != [] && FlightInv(q, flight, |flight|, now)
    ensures KeptInv(Restarted(q, flight[0].addr, now), flight[1..], |flight| - 1)
  {
    var b, q', rest := flight[0].addr, Restarted(q, flight[0].addr, now), flight[1..];
    assert flight == [flight[0]] + rest && flight[..|flight|] == flight && rest[..|rest|] == rest;
    if q.heap[b].repeat {
      RestartShape(q, flight, now);
    }
    hide Restarted, DueInv, RunsInv;
    forall a | a in q'.heap
      ensures if q'.heap[a].repeat then Waits(q', rest, |rest|, a) || EntryOf(q', a) in rest
              else Waits(q', rest, |rest|, a) <==> !HasRun(q'.runs, a)
    {
      if a != b {
        assert EntryOf(q', a) == EntryOf(q, a) != flight[0];
        assert Waits(q', rest, |rest|, a) == Waits(q, flight, |flight|, a);
      }
    }
  }

  lemma RestartKeepsRuns(q: Queue, flight: seq<Entry>, now: int)
    requires flight != [] && FlightInv(q, flight, |flight|, now)
    ensures RunsInv(Restarted(q, flight[0].addr, now))
  {
  }

  lemma RestartKeepsDue(q: Queue, flight: seq<Entry>, now: int)
    requires flight != [] && FlightInv(q, flight, |flight|, now)
    ensures DueInv(Restarted(q, flight[0].addr, now), flight[1..], |flight| - 1, now)
  {
    var b, q', rest := flight[0].addr, Restarted(q, flight[0].addr, now), flight[1..];
    assert Settled(q, b, now);
    if q.heap[b].repeat {
      RestartShape(q, flight, now);
    }
    hide Restarted, KeptInv, RunsInv;
    forall a | a in q'.heap && Waits(q', rest, |rest|, a)
      ensures Due(q', a, q'.heap[a].expiration)
    {
      assert a != b || !q.heap[b].repeat ==> EntryOf(q', a) == EntryOf(q, a) && Waits(q, flight, |flight|, a);
    }
    forall i | 0 <= i < |rest|
      ensures rest[i].addr in q'.heap && Settled(q', rest[i].addr, now)
    {
      assert rest[i] == flight[i + 1];
      assert Settled(q, flight[i + 1].addr, now);
    }
  }

  lemma RestartKeepsKeys(q: Queue, flight: seq<Entry>, now: int)
    requires flight != [] && FlightInv(q, flight, |flight|, now)
    ensures KeysInv(Restarted(q, flight[0].addr, now), flight[1..], now)
  {
    if q.heap[flight[0].addr].repeat {
      RestartShape(q, flight, now);
    }
    hide Restarted, KeptInv, DueInv, RunsInv;
  }

  /** The first of the batch is inserted again, if it repeats. */
  lemma RestartKeeps(q: Queue, flight: seq<Entry>, now: int)
    requires flight != [] && FlightInv(q, flight, |flight|, now)
    ensures FlightInv(Restarted(q, flight[0].addr, now), flight[1..], |flight| - 1, now)
  {
    RestartKeepsKeys(q, flight, now);
    RestartKeepsKept(q, flight, now);
    RestartKeepsRuns(q, flight, now);
    RestartKeepsDue(q, flight, now);
    hide KeysInv, KeptInv, RunsInv, DueInv;
  }

  lemma RunFirstStep(q: Queue, expired: seq<Entry>, k: nat, now: int, scripts: seq<seq<Order>>)
    requires k < |expired| == |scripts| && ScriptsOk(q, expired, now, scripts)
    ensures var called := Called(RunFirst(q, expired, k, now, scripts), expired, k, now);
            RunFirst(q, expired, k + 1, now, scripts) == CreatedAll(called, scripts[k]) && OrdersOk(called, scripts[k])
  {
  }

  lemma {:induction false} RunFirstKeeps(q: Queue, expired: seq<Entry>, k: nat, now: int, scripts: seq<seq<Order>>)
    requires k <= |expired| == |scripts| && FlightInv(q, expired, 0, now) && ScriptsOk(q, expired, now, scripts)
    ensures FlightInv(RunFirst(q, expired, k, now, scripts), expired, k, now)
  {
    hide FlightInv, OrdersOk, ScriptsOk;
    if k > 0 {
      RunFirstKeeps(q, expired, k - 1, now, scripts);
      RunFirstStep(q, expired, k - 1, now, scripts);
      hide RunFirst, CreatedAll;
      var q' := RunFirst(q, expired, k - 1, now, scripts);
      RunKeeps(q', expired, k - 1, now);
      AddAllKeeps(Called(q', expired, k - 1, now), scripts[k - 1], expired, k, now);
    }
  }

  lemma {:induction false} ResetFirstKeeps(q: Queue, expired: seq<Entry>, k: nat, now: int)
    requires k <= |expired| && FlightInv(q, expired, |expired|, now)
    requires forall i :: 0 <= i < |expired| ==> expired[i].addr in q.heap
    ensures FlightInv(ResetFirst(q, expired, k, now), expired[k..], |expired| - k, now)
  {
    hide FlightInv;
    if k == 0 {
      assert expired[0..] == expired;
    } else {
      ResetFirstKeeps(q, expired, k - 1, now);
      assert expired[k - 1..][0] == expired[k - 1] && expired[k - 1..][1..] == expired[k..];
      RestartKeeps(ResetFirst(q, expired, k - 1, now), expired[k - 1..], now);
    }
  }

  /** Up to the last arming. */
  lemma BatchKeeps(q: Queue, now: int, scripts: seq<seq<Order>>) returns (q': Queue)
    requires TimerInv(q) && HandleOk(q, now, scripts)
    ensures FlightInv(q', [], 0, now)
    ensures forall at :: Handled(q, now, scripts, at) == Rearmed(q', at)
  {
    var n := ExpiredCount(q.timers, now);
    var expired, q1 := Batch(q, now), Remaining(q, now);
    hide FlightInv, RunFirst, ResetFirst, ExpiredCount, Rearmed;
    TakeKeeps(q, now);
    RunFirstKeeps(q1, expired, n, now, scripts);
    RunFirstRuns(q1, expired, n, now, scripts);
    var q2 := RunFirst(q1, expired, n, now, scripts);
    assert forall i :: 0 <= i < n ==> expired[i] in q.timers;
    ResetFirstKeeps(q2, expired, n, now);
    q' := ResetFirst(q2, expired, n, now);
    assert expired[n..] == [];
  }

  lemma HandleReadKeeps(q: Queue, now: int, scripts: seq<seq<Order>>, at: int)
    requires TimerInv(q) && HandleOk(q, now, scripts)
    ensures TimerInv(Handled(q, now, scripts, at)) && ArmedForFirst(Handled(q, now, scripts, at))
    ensures var q' := Handled(q, now, scripts, at);
            q'.timers != [] && q'.timers[0].when > 0 ==> q'.armed == Armed(at, q'.timers[0].when)
  {
    var q' := BatchKeeps(q, now, scripts);
    hide FlightInv, HandleOk, Handled;
    SameBetweenOperations(q', q'.armed, now);
    SameBetweenOperations(q', Rearmed(q', at).armed, now);
  }

  /** Between operations neither the clock nor the timerfd matters to the invariant. */
  lemma SameBetweenOperations(q: Queue, armed: Armed, now: int)
    requires FlightInv(q, [], 0, now)
    ensures TimerInv(q.(armed := armed))
  {
  }

  /** One `handleRead` calls exactly the timers due at `now`, in the order of the set, before
      any of the timers that their callbacks add. */
  lemma HandleReadRunsTheDue(q: Queue, now: int, scripts: seq<seq<Order>>, at: int)
    requires TimerInv(q) && HandleOk(q, now, scripts)
    ensures var n := ExpiredCount(q.timers, now);
            && (forall i :: 0 <= i < |q.timers| ==> (i < n <==> q.timers[i].when <= now))
            && Handled(q, now, scripts, at).runs ==
               q.runs + seq(n, i requires 0 <= i < n <= |q.timers| => Run(q.timers[i].addr, now))
  {
    var n := ExpiredCount(q.timers, now);
    ExpiredAreDue(q.timers, now);
    RunFirstRuns(q.(timers := q.timers[n..]), q.timers[..n], n, now, scripts);
  }

  // ---------------------------------------------------------------- what one handleRead leaves

  /** The timer of `o` is there as it was ordered, and waits in the set. */
  predicate Holds(q: Queue, o: Order) {
    o.addr in q.heap && q.heap[o.addr] == Ordered(o) && Entry(o.when, o.addr) in q.timers
  }

  /** What was there is there still: objects unchanged, entries kept. */
  predicate Extends(q: Queue, q': Queue) {
    && (forall a :: a in q.heap ==> a in q'.heap && q'.heap[a] == q.heap[a])
    && (forall x :: x in q.timers ==> x in q'.timers)
  }

  lemma CreatedExtends(q: Queue, o: Order)
    requires OrderOk(q, o)
    ensures Extends(q, Created(q, o)) && Holds(Created(q, o), o)
  {
    InsertedMembers(q.timers, Entry(o.when, o.addr));
  }

  predicate AllHold(q: Queue, orders: seq<Order>) {
    forall i :: 0 <= i < |orders| ==> Holds(q, orders[i])
  }

  predicate ScriptsHold(q: Queue, scripts: seq<seq<Order>>) {
    forall i :: 0 <= i < |scripts| ==> AllHold(q, scripts[i])
  }

  lemma HoldOn(q: Queue, q': Queue, orders: seq<Order>)
    requires AllHold(q, orders) && Extends(q, q')
    ensures AllHold(q', orders)
  {
  }

  lemma ExtendsOn(q: Queue, q': Queue, q'': Queue)
    requires Extends(q, q') && Extends(q', q'')
    ensures Extends(q, q'')
  {
  }

  lemma AllHoldOneMore(q: Queue, orders: seq<Order>)
    requires orders != [] && AllHold(q, orders[..|orders| - 1]) && Holds(q, orders[|orders| - 1])
    ensures AllHold(q, orders)
  {
    hide Holds;
    forall i | 0 <= i < |orders| - 1
      ensures Holds(q, orders[i])
    {
      assert orders[i] == orders[..|orders| - 1][i];
    }
  }

  lemma AllHoldNone(q: Queue)
    ensures AllHold(q, []) && Extends(q, q)
  {
  }

  lemma {:induction false} CreatedAllExtends(q: Queue, orders: seq<Order>)
    requires OrdersOk(q, orders)
    ensures Extends(q, CreatedAll(q, orders)) && AllHold(CreatedAll(q, orders), orders)
    decreases |orders|
  {
    if orders == [] {
      AllHoldNone(q);
    } else {
      var n := |orders| - 1;
      var q', o := CreatedAll(q, orders[..n]), orders[n];
      hide Created, Extends, Holds, AllHold;
      CreatedAllExtends(q, orders[..n]);
      AddAllAllocates(q, orders[..n]);
      CreatedExtends(q', o);
      HoldOn(q', Created(q', o), orders[..n]);
      ExtendsOn(q, q', Created(q', o));
      AllHoldOneMore(Created(q', o), orders);
    }
  }

  /** The callbacks have run: nothing is lost, and every timer they added waits in the set. */
  lemma {:induction false} RunFirstExtends(q: Queue, expired: seq<Entry>, k: nat, now: int, scripts: seq<seq<Order>>)
    requires k <= |expired| == |scripts| && ScriptsOk(q, expired, now, scripts)
    ensures Extends(q, RunFirst(q, expired, k, now, scripts))
    ensures ScriptsHold(RunFirst(q, expired, k, now, scripts), scripts[..k])
  {
    hide OrdersOk, ScriptsOk, CreatedAll, Extends, AllHold;
    if k == 0 {
      ExtendsItself(q);
    } else {
      RunFirstExtends(q, expired, k - 1, now, scripts);
      RunFirstStep(q, expired, k - 1, now, scripts);
      var q0 := RunFirst(q, expired, k - 1, now, scripts);
      var q1 := Called(q0, expired, k - 1, now);
      var q2 := CreatedAll(q1, scripts[k - 1]);
      CalledExtends(q0, expired, k - 1, now);
      CreatedAllExtends(q1, scripts[k - 1]);
      hide RunFirst, Called;
      ExtendsOn(q0, q1, q2);
      ExtendsOn(q, q0, q2);
      ScriptsHoldOn(q0, q2, scripts[..k - 1]);
      assert scripts[..k] == scripts[..k - 1] + [scripts[k - 1]];
    }
  }

  lemma ExtendsItself(q: Queue)
    ensures Extends(q, q)
  {
  }

  lemma CalledExtends(q: Queue, expired: seq<Entry>, k: nat, now: int)
    requires k < |expired|
    ensures Extends(q, Called(q, expired, k, now))
  {
  }

  lemma ScriptsHoldOn(q: Queue, q': Queue, scripts: seq<seq<Order>>)
    requires ScriptsHold(q, scripts) && Extends(q, q')
    ensures ScriptsHold(q', scripts)
  {
    forall i | 0 <= i < |scripts|
      ensures AllHold(q', scripts[i])
    {
      HoldOn(q, q', scripts[i]);
    }
  }

  /** Timer `a` of the batch, before and after: a periodic one is due again one interval after
      `now`, and waits in the set; a one-shot one is as it was. */
  predicate Reset(q: Queue, q': Queue, a: nat, now: int) {
    && a in q.heap && a in q'.heap
    && if q.heap[a].repeat then
         && q'.heap[a] == q.heap[a].(expiration := now + q.heap[a].interval)
         && Entry(now + q.heap[a].interval, a) in q'.timers
       else q'.heap[a] == q.heap[a]
  }

  /** Entry `x` and its timer are as they were. */
  predicate Kept(q: Queue, q': Queue, x: Entry) {
    x in q'.timers && x.addr in q.heap && x.addr in q'.heap && q'.heap[x.addr] == q.heap[x.addr]
  }

  predicate InBatch(expired: seq<Entry>, k: nat, a: nat)
    requires k <= |expired|
  {
    exists i :: 0 <= i < k && expired[i].addr == a
  }

  lemma BatchOneMore(expired: seq<Entry>, k: nat)
    requires 0 < k <= |expired|
    requires forall i, j :: 0 <= i < j < |expired| ==> expired[i].addr != expired[j].addr
    ensures !InBatch(expired, k - 1, expired[k - 1].addr)
    ensures forall b :: InBatch(expired, k, b) <==> InBatch(expired, k - 1, b) || b == expired[k - 1].addr
    ensures forall i :: 0 <= i < k - 1 ==> expired[i].addr != expired[k - 1].addr
  {
    forall b | b == expired[k - 1].addr || InBatch(expired, k - 1, b)
      ensures InBatch(expired, k, b)
    {
      if b == expired[k - 1].addr {
        assert expired[k - 1].addr == b;
      }
    }
  }

  /** One timer is restarted, and no other is touched. */
  lemma RestartedExact(q: Queue, a: nat, now: int)
    requires a in q.heap
    ensures var q' := Restarted(q, a, now);
            && Reset(q, q', a, now) && (forall x :: x in q.timers ==> x in q'.timers)
            && q'.heap.Keys == q.heap.Keys && forall b :: b in q.heap && b != a ==> q'.heap[b] == q.heap[b]
  {
    InsertedMembers(q.timers, Entry(now + q.heap[a].interval, a));
  }

  lemma ResetOn(q: Queue, q': Queue, q'': Queue, a: nat, now: int)
    requires Reset(q, q', a, now) && a in q''.heap && q''.heap[a] == q'.heap[a]
    requires forall x :: x in q'.timers ==> x in q''.timers
    ensures Reset(q, q'', a, now)
  {
  }

  lemma ResetFrom(q: Queue, q': Queue, q'': Queue, a: nat, now: int)
    requires a in q.heap && a in q'.heap && q'.heap[a] == q.heap[a] && Reset(q', q'', a, now)
    ensures Reset(q, q'', a, now)
  {
  }

  /** `reset` moves the periodic timers of the batch on by exactly their interval, and touches
      nothing else. */
  lemma {:induction false} ResetFirstExact(q: Queue, expired: seq<Entry>, k: nat, now: int)
    requires k <= |expired| && forall i :: 0 <= i < |expired| ==> expired[i].addr in q.heap
    requires forall i, j :: 0 <= i < j < |expired| ==> expired[i].addr != expired[j].addr
    ensures var q' := ResetFirst(q, expired, k, now);
            && (forall x :: x in q.timers ==> x in q'.timers)
            && (forall a :: a in q.heap && !InBatch(expired, k, a) ==> q'.heap[a] == q.heap[a])
            && (forall i :: 0 <= i < k ==> Reset(q, q', expired[i].addr, now))
  {
    if k > 0 {
      ResetFirstExact(q, expired, k - 1, now);
      var q', a := ResetFirst(q, expired, k - 1, now), expired[k - 1].addr;
      RestartedExact(q', a, now);
      BatchOneMore(expired, k);
      hide Restarted, InBatch, Reset;
      var q'' := Restarted(q', a, now);
      ResetFrom(q, q', q'', a, now);
      forall i | 0 <= i < k - 1
        ensures Reset(q, q'', expired[i].addr, now)
      {
        ResetOn(q, q', q'', expired[i].addr, now);
      }
    }
  }

  lemma ResetKeepsScripts(q: Queue, q': Queue, expired: seq<Entry>, scripts: seq<seq<Order>>)
    requires ScriptsHold(q, scripts) && q.heap.Keys == q'.heap.Keys
    requires forall x :: x in q.timers ==> x in q'.timers
    requires forall a :: a in q.heap && !InBatch(expired, |expired|, a) ==> q'.heap[a] == q.heap[a]
    requires forall i, j :: 0 <= i < |scripts| && 0 <= j < |scripts[i]| ==>
      !InBatch(expired, |expired|, scripts[i][j].addr)
    ensures ScriptsHold(q', scripts)
  {
    hide InBatch;
    forall i, j | 0 <= i < |scripts| && 0 <= j < |scripts[i]|
      ensures Holds(q', scripts[i][j])
    {
      assert AllHold(q, scripts[i]) && Holds(q, scripts[i][j]);
    }
  }

  /** What `reset` did to the batch and to the rest, seen from before the callbacks. */
  lemma SeenFromBefore(q: Queue, q2: Queue, q': Queue, expired: seq<Entry>, now: int)
    requires KeysInv(q, expired, now) && Extends(q, q2)
    requires forall x :: x in q2.timers ==> x in q'.timers
    requires q2.heap.Keys == q'.heap.Keys
    requires forall a :: a in q2.heap && !InBatch(expired, |expired|, a) ==> q'.heap[a] == q2.heap[a]
    requires forall i :: 0 <= i < |expired| ==> Reset(q2, q', expired[i].addr, now)
    ensures forall i :: 0 <= i < |expired| ==> Reset(q, q', expired[i].addr, now)
    ensures forall x :: x in q.timers ==> Kept(q, q', x)
  {
    forall x | x in q.timers
      ensures Kept(q, q', x)
    {
      assert !InBatch(expired, |expired|, x.addr);
    }
  }

  /** After the callbacks and `reset`, for a batch that has been taken out. */
  lemma BatchLeaves(q: Queue, expired: seq<Entry>, now: int, scripts: seq<seq<Order>>, q2: Queue)
    requires |expired| == |scripts| && KeysInv(q, expired, now) && ScriptsOk(q, expired, now, scripts)
    requires q2 == RunFirst(q, expired, |expired|, now, scripts)
    ensures forall i :: 0 <= i < |expired| ==> expired[i].addr in q2.heap
    ensures var q' := ResetFirst(q2, expired, |expired|, now);
            && ScriptsHold(q', scripts)
            && (forall i :: 0 <= i < |expired| ==> Reset(q, q', expired[i].addr, now))
            && (forall x :: x in q.timers ==> Kept(q, q', x))
  {
    var n := |expired|;
    RunFirstRuns(q, expired, n, now, scripts);
    RunFirstExtends(q, expired, n, now, scripts);
    BatchIsThere(q, expired, now);
    NewIsNotExpired(q, expired, now, scripts);
    hide RunFirst, ResetFirst, ScriptsOk, ScriptsHold, Extends, Reset, Kept, InBatch, KeysInv;
    ResetFirstExact(q2, expired, n, now);
    var q' := ResetFirst(q2, expired, n, now);
    assert scripts[..n] == scripts;
    ResetKeepsScripts(q2, q', expired, scripts);
    SeenFromBefore(q, q2, q', expired, now);
  }

  lemma BatchIsThere(q: Queue, expired: seq<Entry>, now: int)
    requires KeysInv(q, expired, now)
    ensures forall i :: 0 <= i < |expired| ==> expired[i].addr in q.heap
    ensures forall i, j :: 0 <= i < j < |expired| ==> expired[i].addr != expired[j].addr
  {
  }

  /** After `handleRead`, every timer that a callback of the batch has added is there as it was
      ordered and waits in the set; every periodic timer of the batch is due again exactly one
      interval after `now`; every other timer is as it was. */
  lemma HandleReadLeaves(q: Queue, now: int, scripts: seq<seq<Order>>, at: int)
    requires TimerInv(q) && HandleOk(q, now, scripts)
    ensures var q' := Handled(q, now, scripts, at);
            && ScriptsHold(q', scripts)
            && (forall i :: 0 <= i < |q.timers| && q.timers[i].when <= now ==> Reset(q, q', q.timers[i].addr, now))
            && (forall i :: 0 <= i < |q.timers| && q.timers[i].when > now ==> Kept(q, q', q.timers[i]))
  {
    TakeKeepsKeys(q, now);
    var n, expired, q1 := ExpiredCount(q.timers, now), Batch(q, now), Remaining(q, now);
    Split(q, now);
    hide FlightInv, RunFirst, ResetFirst, ExpiredCount, ScriptsOk, KeysInv, Reset, Kept, ScriptsHold, Rearmed;
    var q2 := RunFirst(q1, expired, n, now, scripts);
    BatchLeaves(q1, expired, now, scripts, q2);
    var q3 := ResetFirst(q2, expired, n, now);
    RearmKeeps(q1, q3, at, scripts, expired, now);
    SeenFromAll(q, q1, Rearmed(q3, at), now);
  }

  /** The batch and the rest are the timers due and those not due. */
  lemma Split(q: Queue, now: int)
    requires TimerInv(q)
    ensures forall i :: 0 <= i < |q.timers| && q.timers[i].when <= now ==> q.timers[i] in Batch(q, now)
    ensures forall i :: 0 <= i < |q.timers| && q.timers[i].when > now ==> q.timers[i] in Remaining(q, now).timers
    ensures |Batch(q, now)| == ExpiredCount(q.timers, now) && Remaining(q, now).heap == q.heap
  {
    ExpiredAreDue(q.timers, now);
    hide ExpiredCount;
    var n := ExpiredCount(q.timers, now);
    forall i | 0 <= i < |q.timers|
      ensures if i < n then q.timers[i] in q.timers[..n] else q.timers[i] in q.timers[n..]
    {
      assert i < n ==> q.timers[..n][i] == q.timers[i];
      assert i >= n ==> q.timers[n..][i - n] == q.timers[i];
    }
  }

  lemma SeenFromAll(q: Queue, q1: Queue, q': Queue, now: int)
    requires TimerInv(q) && q1 == Remaining(q, now)
    requires forall x :: x in Batch(q, now) ==> Reset(q1, q', x.addr, now)
    requires forall x :: x in q1.timers ==> Kept(q1, q', x)
    ensures forall i :: 0 <= i < |q.timers| && q.timers[i].when <= now ==> Reset(q, q', q.timers[i].addr, now)
    ensures forall i :: 0 <= i < |q.timers| && q.timers[i].when > now ==> Kept(q, q', q.timers[i])
  {
    Split(q, now);
    hide FlightInv, Batch;
  }

  /** The last arming changes no timer. */
  lemma RearmKeeps(q: Queue, q': Queue, at: int, scripts: seq<seq<Order>>, expired: seq<Entry>, now: int)
    requires ScriptsHold(q', scripts)
    requires forall i :: 0 <= i < |expired| ==> Reset(q, q', expired[i].addr, now)
    requires forall x :: x in q.timers ==> Kept(q, q', x)
    ensures ScriptsHold(Rearmed(q', at), scripts)
    ensures forall x :: x in expired ==> Reset(q, Rearmed(q', at), x.addr, now)
    ensures forall x :: x in q.timers ==> Kept(q, Rearmed(q', at), x)
  {
    var q'' := Rearmed(q', at);
    assert forall o :: Holds(q', o) ==> Holds(q'', o);
    hide Holds;
    forall i | 0 <= i < |scripts|
      ensures AllHold(q'', scripts[i])
    {
      assert AllHold(q', scripts[i]);
    }
  }

  /** The timers that callbacks add are none of the batch. */
  lemma NewIsNotExpired(q: Queue, expired: seq<Entry>, now: int, scripts: seq<seq<Order>>)
    requires |expired| == |scripts| && ScriptsOk(q, expired, now, scripts)
    requires forall i :: 0 <= i < |expired| ==> expired[i].addr in q.heap
    ensures forall i, j :: 0 <= i < |scripts| && 0 <= j < |scripts[i]| ==>
      !InBatch(expired, |expired|, scripts[i][j].addr)
  {
    forall i, j | 0 <= i < |scripts| && 0 <= j < |scripts[i]|
      ensures !InBatch(expired, |expired|, scripts[i][j].addr)
    {
      RunFirstRuns(q, expired, i, now, scripts);
      assert OrdersOk(RunFirst(q, expired, i, now, scripts), scripts[i]);
    }
  }

  // ---------------------------------------------------------------- every run

  datatype Step = Add(order: Order) | TimerfdReadable(now: int, scripts: seq<seq<Order>>, at: int)

  predicate Enabled(q: Queue, step: Step) {
    match step
    case Add(order) => OrderOk(q, order)
    case TimerfdReadable(now, scripts, _) => HandleOk(q, now, scripts)
  }

  function Apply(q: Queue, step: Step): Queue
    requires Enabled(q, step)
  {
    match step
    case Add(order) => Created(q, order)
    case TimerfdReadable(now, scripts, at) => Handled(q, now, scripts, at)
  }

  predicate Legal(q: Queue, steps: seq<Step>)
    decreases |steps|
  {
    steps == [] || (Enabled(q, steps[0]) && Legal(Apply(q, steps[0]), steps[1..]))
  }

  function Exec(q: Queue, steps: seq<Step>): Queue
    requires Legal(q, steps)
    decreases |steps|
  {
    if steps == [] then q else Exec(Apply(q, steps[0]), steps[1..])
  }

  const EMPTY := Queue([], map[], Never, [])

  lemma StepKeeps(q: Queue, step: Step)
    requires TimerInv(q) && ArmedForFirst(q) && Enabled(q, step)
    ensures TimerInv(Apply(q, step)) && ArmedForFirst(Apply(q, step))
  {
    match step
    case Add(order) =>
      AddKeeps(q, order, [], 0, 0);
      AddKeepsArmed(q, order);
    case TimerfdReadable(now, scripts, at) =>
      HandleReadKeeps(q, now, scripts, at);
  }

  lemma {:induction false} ExecKeeps(q: Queue, steps: seq<Step>)
    requires TimerInv(q) && ArmedForFirst(q) && Legal(q, steps)
    ensures TimerInv(Exec(q, steps)) && ArmedForFirst(Exec(q, steps))
    decreases |steps|
  {
    hide TimerInv, ArmedForFirst, Apply;
    if steps != [] {
      StepKeeps(q, steps[0]);
      ExecKeeps(Apply(q, steps[0]), steps[1..]);
    }
  }

  /** In every run, spurious calls of `handleRead` included: whenever there are timers and the
      earliest expiration is a valid time, the timerfd was last programmed to fire at that
      expiration, or 100 microseconds after it was programmed if that is later. */
  lemma AlwaysArmed(steps: seq<Step>)
    requires Legal(EMPTY, steps)
    ensures var q := Exec(EMPTY, steps);
            q.timers != [] && q.timers[0].when > 0 ==>
              q.armed.Armed? && Deadline(q.armed) == Max(q.timers[0].when, q.armed.at + 100)
  {
    ExecKeeps(EMPTY, steps);
    var q := Exec(EMPTY, steps);
    if q.timers != [] && q.timers[0].when > 0 {
      DeadlineIsEarliest(q);
    }
  }

  /** In every run: entries are keyed by their timer's expiration and no timer has two, a
      periodic timer is never lost, a one-shot timer is in the set exactly until it has run. */
  lemma NoTimerIsLost(steps: seq<Step>, a: nat)
    requires Legal(EMPTY, steps) && a in Exec(EMPTY, steps).heap
    ensures var q := Exec(EMPTY, steps);
            && (forall i :: 0 <= i < |q.timers| && q.timers[i].addr == a ==> q.timers[i].when == q.heap[a].expiration)
            && (forall i, j :: 0 <= i < j < |q.timers| ==> q.timers[i].addr != q.timers[j].addr)
            && (EntryOf(q, a) in q.timers <==> q.heap[a].repeat || !HasRun(q.runs, a))
  {
    ExecKeeps(EMPTY, steps);
    var q := Exec(EMPTY, steps);
    var none: seq<Entry> := [];
    assert none[..0] == none && none[0..] == none;
    assert Waits(q, [], 0, a) == (EntryOf(q, a) in q.timers);
    forall i, j | 0 <= i < j < |q.timers|
      ensures q.timers[i].addr != q.timers[j].addr
    {
      assert Before(q.timers[i], q.timers[j]);
      assert q.timers[i] in q.timers && q.timers[j] in q.timers;
    }
  }

  // ---------------------------------------------------------------- what was ordered

  /** The object of `o` is there, as it was ordered up to its expiration. */
  predicate Known(q: Queue, o: Order) {
    o.addr in q.heap && q.heap[o.addr].(expiration := o.when) == Ordered(o)
  }

  /** No object goes away, and none changes but in its expiration. */
  predicate SameTimers(q: Queue, q': Queue) {
    forall a :: a in q.heap ==> a in q'.heap && q'.heap[a].(expiration := 0) == q.heap[a].(expiration := 0)
  }

  lemma KnownOn(q: Queue, q': Queue, o: Order)
    requires Known(q, o) && SameTimers(q, q')
    ensures Known(q', o)
  {
    var r, r' := q.heap[o.addr], q'.heap[o.addr];
    assert r'.(expiration := 0).(expiration := o.when) == r'.(expiration := o.when);
    assert r.(expiration := 0).(expiration := o.when) == r.(expiration := o.when);
  }

  lemma {:induction false} ResetFirstSame(q: Queue, expired: seq<Entry>, k: nat, now: int)
    requires k <= |expired| && forall i :: 0 <= i < |expired| ==> expired[i].addr in q.heap
    ensures SameTimers(q, ResetFirst(q, expired, k, now))
  {
    if k > 0 {
      ResetFirstSame(q, expired, k - 1, now);
      RestartedExact(ResetFirst(q, expired, k - 1, now), expired[k - 1].addr, now);
      hide Restarted;
    }
  }

  lemma HandledSame(q: Queue, now: int, scripts: seq<seq<Order>>, at: int)
    requires HandleOk(q, now, scripts)
    ensures SameTimers(q, Handled(q, now, scripts, at))
  {
    var n, expired, q1 := ExpiredCount(q.timers, now), Batch(q, now), Remaining(q, now);
    assert forall i :: 0 <= i < n ==> expired[i] in q.timers;
    RunFirstRuns(q1, expired, n, now, scripts);
    RunFirstExtends(q1, expired, n, now, scripts);
    hide RunFirst, ResetFirst, ExpiredCount, ScriptsOk, ScriptsHold;
    ResetFirstSame(RunFirst(q1, expired, n, now, scripts), expired, n, now);
  }

  lemma StepSame(q: Queue, step: Step)
    requires Enabled(q, step)
    ensures SameTimers(q, Apply(q, step))
  {
    match step
    case Add(order) => CreatedExtends(q, order);
    case TimerfdReadable(now, scripts, at) =>
      hide Handled, HandleOk;
      HandledSame(q, now, scripts, at);
  }

  /** The step orders a timer, from outside or in a callback. */
  predicate Orders(step: Step, o: Order) {
    match step
    case Add(order) => order == o
    case TimerfdReadable(_, scripts, _) =>
      exists i, j :: 0 <= i < |scripts| && 0 <= j < |scripts[i]| && scripts[i][j] == o
  }

  lemma StepOrders(q: Queue, step: Step, o: Order)
    requires TimerInv(q) && Enabled(q, step) && Orders(step, o)
    ensures Known(Apply(q, step), o)
  {
    match step
    case Add(order) => CreatedExtends(q, order);
    case TimerfdReadable(now, scripts, at) =>
      HandleReadLeaves(q, now, scripts, at);
      hide Handled, HandleOk, FlightInv;
      var i, j :| 0 <= i < |scripts| && 0 <= j < |scripts[i]| && scripts[i][j] == o;
      assert AllHold(Handled(q, now, scripts, at), scripts[i]);
      assert Holds(Handled(q, now, scripts, at), scripts[i][j]);
  }

  lemma {:induction false} KnownFrom(q: Queue, steps: seq<Step>, o: Order)
    requires Legal(q, steps) && Known(q, o)
    ensures Known(Exec(q, steps), o)
    decreases |steps|
  {
    if steps != [] {
      StepSame(q, steps[0]);
      hide Apply, SameTimers, Known;
      KnownOn(q, Apply(q, steps[0]), o);
      KnownFrom(Apply(q, steps[0]), steps[1..], o);
    }
  }

  lemma {:induction false} OrderedFrom(q: Queue, steps: seq<Step>, k: nat, o: Order)
    requires TimerInv(q) && ArmedForFirst(q) && Legal(q, steps) && k < |steps| && Orders(steps[k], o)
    ensures Known(Exec(q, steps), o)
    decreases |steps|
  {
    hide TimerInv, ArmedForFirst, Apply, Known, Orders;
    if k == 0 {
      StepOrders(q, steps[0], o);
      KnownFrom(Apply(q, steps[0]), steps[1..], o);
    } else {
      StepKeeps(q, steps[0]);
      OrderedFrom(Apply(q, steps[0]), steps[1..], k - 1, o);
    }
  }

  /** In every run: every timer that was ordered, by `addTimer` or by a callback in the middle of a
      batch, is there with the start, the interval and the repetition it was ordered with; so it
      is in the set until it has run, and for ever if it is periodic. */
  lemma EveryOrderIsServed(steps: seq<Step>, k: nat, o: Order)
    requires Legal(EMPTY, steps) && k < |steps| && Orders(steps[k], o)
    ensures var q := Exec(EMPTY, steps);
            && o.addr in q.heap && q.heap[o.addr].start == o.when && q.heap[o.addr].interval == Micros(o.interval)
            && (q.heap[o.addr].repeat <==> o.interval > 0.0)
            && (EntryOf(q, o.addr) in q.timers <==> o.interval > 0.0 || !HasRun(q.runs, o.addr))
  {
    EmptyKeeps();
    hide TimerInv, ArmedForFirst, Apply, Orders, Exec, Legal, HasRun;
    OrderedFrom(EMPTY, steps, k, o);
    NoTimerIsLost(steps, o.addr);
  }

  lemma EmptyKeeps()
    ensures TimerInv(EMPTY) && ArmedForFirst(EMPTY)
  {
  }

  /** In every run: no timer runs before the time it was created for, a one-shot timer runs at
      most once, and two calls of a periodic timer are at least its interval apart. */
  lemma CallsAreTimely(steps: seq<Step>, i: nat, j: nat)
    requires Legal(EMPTY, steps) && i <= j < |Exec(EMPTY, steps).runs|
    ensures var q := Exec(EMPTY, steps);
            && q.runs[i].addr in q.heap && q.heap[q.runs[i].addr].start <= q.runs[i].now
            && (i < j && q.runs[i].addr == q.runs[j].addr ==>
                  q.heap[q.runs[i].addr].repeat
                  && q.runs[i].now + q.heap[q.runs[i].addr].interval <= q.runs[j].now)
  {
    ExecKeeps(EMPTY, steps);
  }
}
