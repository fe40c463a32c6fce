/** The timer queue: a set of timers ordered by expiration and address, one timerfd armed for
    the earliest of them, and periodic timers that are inserted again after they have run.
    All times are integer microseconds. */
module Timers {

  const UINTPTR_MAX: nat := 0xffff_ffff_ffff_ffff
  const MICROS_PER_SECOND: int := 1_000_000

  /** A `Timer` object. `start` is a history field: the expiration it was created with. */
  datatype Record = Record(expiration: int, interval: nat, repeat: bool, start: int)

  /** An element of `timers_`: the key is the pair of expiration and address. */
  datatype Entry = Entry(when: int, addr: nat)

  /** One call of `timer->run()`, with the `now` of its `handleRead`. */
  datatype Run = Run(addr: nat, now: int)

  /** The last call of timerfd_settime: when it was made and for which expiration. */
  datatype Armed = Never | Armed(at: int, when: int)

  datatype Queue = Queue(timers: seq<Entry>, heap: map<nat, Record>, armed: Armed, runs: seq<Run>)

  /** A timer to be added at time `at`, allocated at address `addr`. */
  datatype Order = Order(addr: nat, when: int, interval: real, at: int)

  /** `addTime` counts whole microseconds of an interval in seconds. */
  function Micros(interval: real): nat {
    if interval <= 0.0 then 0 else (interval * MICROS_PER_SECOND as real).Floor
  }

  lemma MicrosIsExact(interval: real)
    ensures interval <= 0.0 ==> Micros(interval) == 0
    ensures interval > 0.0 ==> Micros(interval) as real <= interval * 1000000.0 < (Micros(interval) + 1) as real
  {
  }

  /** The timer that an order creates. */
  function Ordered(o: Order): Record {
    Record(o.when, Micros(o.interval), o.interval > 0.0, o.when)
  }

  // ---------------------------------------------------------------- arming

  datatype Timespec = Timespec(sec: int, nsec: int)

  /** How long the timerfd is programmed for. */
  function TimeDiff(when: int, now: int): int {
    if when - now < 100 then 100 else when - now
  }

  function GetTimeDiffFromNow(when: int, now: int): Timespec {
    var micros := TimeDiff(when, now);
    Timespec(micros / MICROS_PER_SECOND, micros % MICROS_PER_SECOND * 1000)
  }

  /** The split is exact and normalised, and never the zero that would disarm the timerfd. */
  lemma TimespecIsExact(when: int, now: int)
    ensures var ts := GetTimeDiffFromNow(when, now);
            && ts.sec * 1_000_000_000 + ts.nsec == TimeDiff(when, now) * 1000
            && 0 <= ts.sec && 0 <= ts.nsec < 1_000_000_000 && (ts.sec > 0 || ts.nsec > 0)
  {
  }

  /** When the timerfd fires. */
  function Deadline(armed: Armed): int
    requires armed.Armed?
  {
    armed.at + TimeDiff(armed.when, armed.at)
  }

  function Max(a: int, b: int): int {
    if a < b then b else a
  }

  // ---------------------------------------------------------------- the ordered set

  predicate Before(a: Entry, b: Entry) {
    a.when < b.when || (a.when == b.when && a.addr < b.addr)
  }

  predicate Sorted(s: seq<Entry>) {
    forall i, j :: 0 <= i < j < |s| ==> Before(s[i], s[j])
  }

  /** `std::set::insert`. */
  function Inserted(s: seq<Entry>, e: Entry): seq<Entry> {
    if s == [] then [e]
    else if Before(e, s[0]) then [e] + s
    else if e == s[0] then s
    else [s[0]] + Inserted(s[1..], e)
  }

  lemma {:induction false} InsertedKeepsOrder(s: seq<Entry>, e: Entry)
    requires Sorted(s)
    ensures Sorted(Inserted(s, e))
    ensures forall x :: x in Inserted(s, e) <==> x in s || x == e
    ensures Inserted(s, e)[0] == if s == [] || Before(e, s[0]) then e else s[0]
  {
    if s != [] && !Before(e, s[0]) && e != s[0] {
      var rest := s[1..];
      InsertedKeepsOrder(rest, e);
      var r := Inserted(rest, e);
      assert s == [s[0]] + rest;
      forall i | 0 <= i < |r|
        ensures Before(s[0], r[i])
      {
        assert r[i] in rest || r[i] == e;
      }
    }
  }

  lemma {:induction false} InsertedMembers(s: seq<Entry>, e: Entry)
    ensures forall x :: x in Inserted(s, e) <==> x in s || x == e
  {
    if s != [] && !Before(e, s[0]) && e != s[0] {
      InsertedMembers(s[1..], e);
      assert s == [s[0]] + s[1..];
    }
  }

  /** `std::set::lower_bound`: how many entries come before `bound`. */
  function LowerBound(s: seq<Entry>, bound: Entry): (n: nat)
    ensures n <= |s|
  {
    if s == [] || !Before(s[0], bound) then 0 else 1 + LowerBound(s[1..], bound)
  }

  lemma {:induction false} LowerBoundSplits(s: seq<Entry>, bound: Entry)
    requires Sorted(s)
    ensures forall i :: 0 <= i < LowerBound(s, bound) ==> Before(s[i], bound)
    ensures forall i :: LowerBound(s, bound) <= i < |s| ==> !Before(s[i], bound)
  {
    if s != [] && Before(s[0], bound) {
      LowerBoundSplits(s[1..], bound);
      assert s == [s[0]] + s[1..];
    }
  }

  /** How many timers `getExpired` takes out. */
  function ExpiredCount(s: seq<Entry>, now: int): (n: nat)
    ensures n <= |s|
  {
    LowerBound(s, Entry(now, UINTPTR_MAX))
  }

  /** `getExpired` takes out exactly the timers due at `now`, and its assertion holds, because
      no object sits at the last address. */
  lemma ExpiredAreDue(s: seq<Entry>, now: int)
    requires Sorted(s) && forall x :: x in s ==> x.addr < UINTPTR_MAX
    ensures forall i :: 0 <= i < |s| ==> (i < ExpiredCount(s, now) <==> s[i].when <= now)
  {
    LowerBoundSplits(s, Entry(now, UINTPTR_MAX));
  }

  // ---------------------------------------------------------------- the operations

  function Enrolled(q: Queue, a: nat): Queue
    requires a in q.heap
  {
    q.(timers := Inserted(q.timers, Entry(q.heap[a].expiration, a)))
  }

  /** What `insert` returns. */
  predicate IsEarliest(q: Queue, a: nat)
    requires a in q.heap
  {
    q.timers == [] || q.heap[a].expiration < q.timers[0].when
  }

  function Scheduled(q: Queue, a: nat, at: int): Queue
    requires a in q.heap
  {
    var q' := Enrolled(q, a);
    if IsEarliest(q, a) then q'.(armed := Armed(at, q.heap[a].expiration)) else q'
  }

  /** `addTimer` on the loop's thread: the allocator gives an address not in use. */
  function Created(q: Queue, o: Order): Queue {
    Scheduled(q.(heap := q.heap[o.addr := Ordered(o)]), o.addr, o.at)
  }

  function CreatedAll(q: Queue, orders: seq<Order>): Queue {
    if orders == [] then q else Created(CreatedAll(q, orders[..|orders| - 1]), orders[|orders| - 1])
  }

  /** The first `k` expired timers have run, and each has added the timers its callback adds. */
  function RunFirst(q: Queue, expired: seq<Entry>, k: nat, now: int, scripts: seq<seq<Order>>): Queue
    requires k <= |expired| == |scripts|
  {
    if k == 0 then q
    else
      var q' := RunFirst(q, expired, k - 1, now, scripts);
      CreatedAll(q'.(runs := q'.runs + [Run(expired[k - 1].addr, now)]), scripts[k - 1])
  }

  /** `restart` and `insert`, for a timer that repeats. */
  function Restarted(q: Queue, a: nat, now: int): Queue
    requires a in q.heap
  {
    if !q.heap[a].repeat then q
    else Enrolled(q.(heap := q.heap[a := q.heap[a].(expiration := now + q.heap[a].interval)]), a)
  }

  lemma RestartedOnlyIfRepeating(q: Queue, a: nat, now: int)
    requires a in q.heap && !q.heap[a].repeat
    ensures Restarted(q, a, now) == q
  {
  }

  function ResetFirst(q: Queue, expired: seq<Entry>, k: nat, now: int): (r: Queue)
    requires k <= |expired| && forall i :: 0 <= i < |expired| ==> expired[i].addr in q.heap
    ensures r.heap.Keys == q.heap.Keys && r.runs == q.runs && r.armed == q.armed
  {
    if k == 0 then q else Restarted(ResetFirst(q, expired, k - 1, now), expired[k - 1].addr, now)
  }

  /** The end of `reset`: the timerfd is armed for the first timer, if that is a valid time. */
  function Rearmed(q: Queue, at: int): Queue {
    if q.timers != [] && q.timers[0].when > 0 then q.(armed := Armed(at, q.timers[0].when)) else q
  }

  lemma {:induction false} AddTimersKeepsHeap(q: Queue, orders: seq<Order>)
    ensures q.heap.Keys <= CreatedAll(q, orders).heap.Keys && CreatedAll(q, orders).runs == q.runs
  {
    if orders != [] {
      AddTimersKeepsHeap(q, orders[..|orders| - 1]);
    }
  }

  lemma {:induction false} RunFirstRuns(q: Queue, expired: seq<Entry>, k: nat, now: int, scripts: seq<seq<Order>>)
    requires k <= |expired| == |scripts|
    ensures q.heap.Keys <= RunFirst(q, expired, k, now, scripts).heap.Keys
    ensures RunFirst(q, expired, k, now, scripts).runs ==
            q.runs + seq(k, i requires 0 <= i < k <= |expired| => Run(expired[i].addr, now))
  {
    if k > 0 {
      RunFirstRuns(q, expired, k - 1, now, scripts);
      var q' := RunFirst(q, expired, k - 1, now, scripts);
      AddTimersKeepsHeap(q'.(runs := q'.runs + [Run(expired[k - 1].addr, now)]), scripts[k - 1]);
    }
  }

  /** Every entry stands for an allocated timer, below the last address. */
  predicate Allocated(q: Queue) {
    && (forall x :: x in q.timers ==> x.addr in q.heap)
    && (forall a :: a in q.heap ==> a < UINTPTR_MAX)
  }

  /** An order the allocator may serve: the address is free, and it is not the last one. */
  predicate OrderOk(q: Queue, o: Order) {
    o.addr !in q.heap && o.addr < UINTPTR_MAX
  }

  predicate OrdersOk(q: Queue, orders: seq<Order>) {
    && (forall i :: 0 <= i < |orders| ==> OrderOk(q, orders[i]))
    && (forall i, j :: 0 <= i < j < |orders| ==> orders[i].addr != orders[j].addr)
  }

  /** Callbacks may add timers as long as the allocator can serve them. */
  predicate ScriptsOk(q: Queue, expired: seq<Entry>, now: int, scripts: seq<seq<Order>>)
    requires |expired| == |scripts|
  {
    forall i :: 0 <= i < |scripts| ==> OrdersOk(RunFirst(q, expired, i, now, scripts), scripts[i])
  }

  lemma RunNone(q: Queue, expired: seq<Entry>, now: int, scripts: seq<seq<Order>>)
    requires |expired| == |scripts|
    ensures RunFirst(q, expired, 0, now, scripts) == q
  {
  }

  lemma RunOneMore(q: Queue, expired: seq<Entry>, k: nat, now: int, scripts: seq<seq<Order>>)
    requires k < |expired| == |scripts| && ScriptsOk(q, expired, now, scripts)
    ensures var q' := RunFirst(q, expired, k, now, scripts);
            && OrdersOk(q', scripts[k])
            && RunFirst(q, expired, k + 1, now, scripts) ==
               CreatedAll(q'.(runs := q'.runs + [Run(expired[k].addr, now)]), scripts[k])
  {
  }

  /** The queue and the batch after `getExpired`. */
  function Remaining(q: Queue, now: int): Queue {
    q.(timers := q.timers[ExpiredCount(q.timers, now)..])
  }

  function Batch(q: Queue, now: int): seq<Entry> {
    q.timers[..ExpiredCount(q.timers, now)]
  }

  /** What `handleRead` may be called with. */
  predicate HandleOk(q: Queue, now: int, scripts: seq<seq<Order>>) {
    && Allocated(q) && |scripts| == ExpiredCount(q.timers, now)
    && ScriptsOk(Remaining(q, now), Batch(q, now), now, scripts)
  }

  /** `handleRead` at `now`, whose last arming is done at time `at`. `scripts[i]` lists the timers
      that the callback of the i-th expired timer adds. */
  function Handled(q: Queue, now: int, scripts: seq<seq<Order>>, at: int): Queue
    requires Allocated(q) && |scripts| == ExpiredCount(q.timers, now)
  {
    var n, expired := ExpiredCount(q.timers, now), Batch(q, now);
    assert forall i :: 0 <= i < n ==> expired[i] in q.timers;
    RunFirstRuns(Remaining(q, now), expired, n, now, scripts);
    Rearmed(ResetFirst(RunFirst(Remaining(q, now), expired, n, now, scripts), expired, n, now), at)
  }

  // ---------------------------------------------------------------- the classes

  const INVALID := 0  // Timestamp::invalid()

  class Timer {
    const addr: nat  // where the object lies
    const interval: nat
    const repeat: bool
    ghost const start: int
    var expiration: int

    constructor (addr: nat, when: int, itv: real)
      ensures this.addr == addr && View() == Record(when, Micros(itv), itv > 0.0, when)
    {
      this.addr, interval, repeat, start := addr, Micros(itv), itv > 0.0, when;
      expiration := when;
    }

    ghost function View(): Record
      reads this
    {
      Record(expiration, interval, repeat, start)
    }

    method Restart(when: int)
      modifies this
      ensures View() == old(View()).(expiration := if repeat then when + interval else INVALID)
    {
      if repeat {
        expiration := when + interval;
      } else {
        expiration := INVALID;
      }
    }
  }

  class TimerQueue {
    var timers: seq<Entry>
    var store: map<nat, Timer>  // the object at each address
    var armed: Armed            // the last call of timerfd_settime
    ghost var heap: map<nat, Record>
    ghost var runs: seq<Run>

    constructor ()
      ensures Valid() && View() == Queue([], map[], Never, []) && store == map[]
    {
      timers, store, armed, heap, runs := [], map[], Never, map[], [];
    }

    ghost predicate Valid()
      reads this, store.Values
    {
      heap.Keys == store.Keys && forall a :: a in store ==> store[a].addr == a && store[a].View() == heap[a]
    }

    ghost function View(): Queue
      reads this
    {
      Queue(timers, heap, armed, runs)
    }

    method ResetTimerfd(when: int, at: int)
      modifies this`armed
      ensures armed == Armed(at, when)
    {
      armed := Armed(at, when);
    }

    method Insert(timer: Timer) returns (isEarliest: bool)
      requires Valid() && timer.addr in store && store[timer.addr] == timer
      modifies this`timers
      ensures Valid() && View() == old(Enrolled(View(), timer.addr))
      ensures isEarliest == old(IsEarliest(View(), timer.addr))
    {
      isEarliest := timers == [] || timer.expiration < timers[0].when;
      timers := Inserted(timers, Entry(timer.expiration, timer.addr));
    }

    method AddTimerInLoop(timer: Timer, at: int)
      requires Valid() && timer.addr in store && store[timer.addr] == timer
      modifies this`timers, this`armed
      ensures Valid() && View() == old(Scheduled(View(), timer.addr, at))
    {
      var isEarliest := Insert(timer);
      if isEarliest {
        ResetTimerfd(timer.expiration, at);
      }
    }

    method AddTimer(o: Order)
      requires Valid() && o.addr !in store
      modifies this
      ensures Valid() && View() == old(Created(View(), o))
      ensures o.addr in store && fresh(store[o.addr]) && store == old(store)[o.addr := store[o.addr]]
    {
      var timer := new Timer(o.addr, o.when, o.interval);
      store := store[o.addr := timer];
      heap := heap[o.addr := Ordered(o)];
      AddTimerInLoop(timer, o.at);
    }

    method GetExpired(now: int) returns (expired: seq<Entry>)
      modifies this`timers
      ensures var n := ExpiredCount(old(timers), now);
              expired == old(timers)[..n] && timers == old(timers)[n..]
    {
      var end := LowerBound(timers, Entry(now, UINTPTR_MAX));
      expired := timers[..end];
      timers := timers[end..];
    }

    /** One callback: it is called, and adds its timers. */
    method RunTimer(addr: nat, now: int, script: seq<Order>)
      requires Valid() && OrdersOk(View(), script)
      modifies this
      ensures Valid() && View() == old(CreatedAll(View().(runs := runs + [Run(addr, now)]), script))
      ensures forall t :: t in store.Values ==> t in old(store.Values) || fresh(t)
    {
      runs := runs + [Run(addr, now)];
      ghost var q := View();
      for i := 0 to |script|
        invariant Valid() && View() == CreatedAll(q, script[..i])
        invariant forall k :: i <= k < |script| ==> script[k].addr !in store
        invariant forall t :: t in store.Values ==> t in old(store.Values) || fresh(t)
      {
        assert script[..i + 1][..i] == script[..i];
        AddTimer(script[i]);
      }
      assert script[..|script|] == script;
    }

    method Reset(expired: seq<Entry>, now: int, at: int)
      requires Valid() && forall i :: 0 <= i < |expired| ==> expired[i].addr in store
      modifies this, store.Values
      ensures Valid() && store == old(store)
      ensures View() == old(Rearmed(ResetFirst(View(), expired, |expired|, now), at))
    {
      ghost var q := View();
      hide Restarted, Rearmed;
      for i := 0 to |expired|
        invariant Valid() && store == old(store) && View() == ResetFirst(q, expired, i, now)
      {
        if store[expired[i].addr].repeat {
          RestartAndInsert(store[expired[i].addr], now);
        } else {
          RestartedOnlyIfRepeating(View(), expired[i].addr, now);
        }
      }
      Rearm(at);
    }

    /** The end of `reset`. */
    method Rearm(at: int)
      modifies this`armed
      ensures View() == old(Rearmed(View(), at))
    {
      if timers != [] && timers[0].when > 0 {
        ResetTimerfd(timers[0].when, at);
      }
    }

    /** The body of the loop in `reset`. */
    method RestartAndInsert(timer: Timer, now: int)
      requires Valid() && timer.addr in store && store[timer.addr] == timer && timer.repeat
      modifies timer, this`heap, this`timers
      ensures Valid() && View() == old(Restarted(View(), timer.addr, now))
    {
      timer.Restart(now);
      heap := heap[timer.addr := timer.View()];
      var _ := Insert(timer);
    }

    method HandleRead(now: int, scripts: seq<seq<Order>>, at: int)
      requires Valid() && HandleOk(View(), now, scripts)
      modifies this, store.Values
      ensures Valid() && View() == old(Handled(View(), now, scripts, at))
    {
      ghost var all := View();
      var expired := GetExpired(now);
      assert forall i :: 0 <= i < |expired| ==> expired[i] in all.timers;
      hide RunFirst, ResetFirst, Rearmed, ExpiredCount, OrdersOk;
      RunFirstRuns(View(), expired, |expired|, now, scripts);
      RunBatch(expired, now, scripts);
      Reset(expired, now, at);
    }

    /** The loop of `handleRead`. */
    method RunBatch(expired: seq<Entry>, now: int, scripts: seq<seq<Order>>)
      requires Valid() && |expired| == |scripts| && ScriptsOk(View(), expired, now, scripts)
      modifies this
      ensures Valid() && View() == old(RunFirst(View(), expired, |expired|, now, scripts))
      ensures forall t :: t in store.Values ==> t in old(store.Values) || fresh(t)
    {
      ghost var q := View();
      RunNone(q, expired, now, scripts);
      hide OrdersOk, ScriptsOk, CreatedAll, RunFirst;
      for i := 0 to |expired|
        invariant Valid() && View() == RunFirst(q, expired, i, now, scripts)
        invariant forall t :: t in store.Values ==> t in old(store.Values) || fresh(t)
      {
        RunOneMore(q, expired, i, now, scripts);
        RunTimer(expired[i].addr, now, scripts[i]);
      }
    }
  }
}
