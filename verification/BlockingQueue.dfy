/** The blocking queue: consumers wait on a condition variable while the queue is empty, and
    every producer notifies one of them. A step is one critical section of the mutex. */
module BlockingQueue {

  type Thread = nat

  /** A consumer waits unsignalled, has been notified and must still take the mutex again, or has
      woken spuriously and must do the same. Consumers outside `dequeue` are not listed. */
  datatype Consumer = Waiting | Signalled | Awake

  datatype State = State(
    queue: seq<int>,
    consumers: map<Thread, Consumer>,
    enqueued: seq<int>,   // history
    dequeued: seq<int>)   // history

  /** `Enqueue` names the consumer that `notify` picks, which must be a waiting one if there is
      any. `Enter` is a call of `dequeue`, and `Resume` the return from `wait`. */
  datatype Step =
    | Enqueue(num: int, picked: Thread)
    | Enter(t: Thread)
    | SpuriousWakeup(t: Thread)
    | Resume(t: Thread)

  predicate IsWaiting(s: State, t: Thread) {
    t in s.consumers && s.consumers[t] == Waiting
  }

  ghost predicate SomeoneWaits(s: State) {
    exists t :: IsWaiting(s, t)
  }

  ghost predicate Enabled(s: State, step: Step) {
    match step
    case Enqueue(_, picked) => SomeoneWaits(s) ==> IsWaiting(s, picked)
    case Enter(t) => t !in s.consumers
    case SpuriousWakeup(t) => IsWaiting(s, t)
    case Resume(t) => t in s.consumers && s.consumers[t] != Waiting
  }

  /** The loop of `dequeue`: wait if the queue is empty, else take the front and leave. */
  function TakeOrWait(s: State, t: Thread): State {
    if s.queue == [] then s.(consumers := s.consumers[t := Waiting])
    else s.(consumers := s.consumers - {t}, queue := s.queue[1..], dequeued := s.dequeued + [s.queue[0]])
  }

  function Apply(s: State, step: Step): State {
    match step
    case Enqueue(num, picked) =>
      var s' := s.(queue := s.queue + [num], enqueued := s.enqueued + [num]);
      if IsWaiting(s, picked) then s'.(consumers := s.consumers[picked := Signalled]) else s'
    case Enter(t) => TakeOrWait(s, t)
    case SpuriousWakeup(t) => s.(consumers := s.consumers[t := Awake])
    case Resume(t) => TakeOrWait(s, t)
  }

  ghost predicate Legal(s: State, steps: seq<Step>)
    decreases |steps|
  {
    steps == [] || (Enabled(s, steps[0]) && Legal(Apply(s, steps[0]), steps[1..]))
  }

  function Exec(s: State, steps: seq<Step>): State
    decreases |steps|
  {
    if steps == [] then s else Exec(Apply(s, steps[0]), steps[1..])
  }

  // ---------------------------------------------------------------- the invariant

  function SignalledOf(s: State): set<Thread> {
    set t | t in s.consumers && s.consumers[t] == Signalled
  }

  /** While anyone waits, every queued item has a notified consumer on its way. Items leave in
      the order they came. */
  ghost predicate Inv(s: State) {
    && (SomeoneWaits(s) ==> |s.queue| <= |SignalledOf(s)|)
    && s.dequeued + s.queue == s.enqueued
  }

  lemma EnqueueKeeps(s: State, num: int, picked: Thread)
    requires Inv(s) && Enabled(s, Enqueue(num, picked))
    ensures Inv(Apply(s, Enqueue(num, picked)))
  {
    var s' := Apply(s, Enqueue(num, picked));
    assert s.dequeued + (s.queue + [num]) == s.enqueued + [num];
    if SomeoneWaits(s') {
      var t :| IsWaiting(s', t);
      assert IsWaiting(s, t);
      assert SignalledOf(s') == SignalledOf(s) + {picked};
    }
  }

  lemma TakeOrWaitKeeps(s: State, t: Thread)
    requires Inv(s) && !IsWaiting(s, t)
    ensures Inv(TakeOrWait(s, t))
  {
    var s' := TakeOrWait(s, t);
    if s.queue != [] {
      assert s.dequeued + [s.queue[0]] + s.queue[1..] == s.dequeued + s.queue;
      if SomeoneWaits(s') {
        var u :| IsWaiting(s', u);
        assert IsWaiting(s, u);
        assert SignalledOf(s) - {t} == SignalledOf(s');
      }
    }
  }

  lemma SpuriousKeeps(s: State, t: Thread)
    requires Inv(s) && IsWaiting(s, t)
    ensures Inv(Apply(s, SpuriousWakeup(t)))
  {
    var s' := Apply(s, SpuriousWakeup(t));
    assert SignalledOf(s') == SignalledOf(s);
  }

  lemma StepKeeps(s: State, step: Step)
    requires Inv(s) && Enabled(s, step)
    ensures Inv(Apply(s, step))
  {
    match step
    case Enqueue(num, picked) => EnqueueKeeps(s, num, picked);
    case Enter(t) => TakeOrWaitKeeps(s, t);
    case SpuriousWakeup(t) => SpuriousKeeps(s, t);
    case Resume(t) => TakeOrWaitKeeps(s, t);
  }

  lemma {:induction false} ExecKeeps(s: State, steps: seq<Step>)
    requires Inv(s) && Legal(s, steps)
    ensures Inv(Exec(s, steps))
    decreases |steps|
  {
    if steps != [] {
      StepKeeps(s, steps[0]);
      ExecKeeps(Apply(s, steps[0]), steps[1..]);
    }
  }

  /** A consumer inside the loop of `dequeue` returns with the front item if and only if there is
      one; then it is gone from the queue and from `dequeue`, and otherwise it waits, unsignalled,
      and nothing is taken. */
  lemma ReturnsIff(s: State, t: Thread)
    requires !IsWaiting(s, t)
    ensures var s' := TakeOrWait(s, t);
            && (t !in s'.consumers <==> s.queue != [])
            && (if s.queue != [] then [s.queue[0]] + s'.queue == s.queue && s'.dequeued == s.dequeued + [s.queue[0]]
                else IsWaiting(s', t) && s'.queue == s.queue && s'.dequeued == s.dequeued)
            && s'.enqueued == s.enqueued
            && forall u :: u != t ==>
                 (u in s'.consumers <==> u in s.consumers) && (IsWaiting(s', u) <==> IsWaiting(s, u))
  {
  }

  /** `notify` wakes one consumer that waits, if any does, and nobody else. */
  lemma NotifyWakesOne(s: State, num: int, picked: Thread)
    requires Enabled(s, Enqueue(num, picked))
    ensures var s' := Apply(s, Enqueue(num, picked));
            && (SomeoneWaits(s) ==> picked in s'.consumers && s'.consumers[picked] == Signalled)
            && (forall u :: IsWaiting(s', u) <==> IsWaiting(s, u) && u != picked)
            && s'.consumers.Keys == s.consumers.Keys && s'.queue == s.queue + [num]
  {
  }

  const EMPTY := State([], map[], [], [])

  /** No consumer is stranded, in any interleaving, whatever barging and spurious wake-ups there
      are: while one waits unsignalled, there are at most as many items as consumers notified
      and yet to run. And what left the queue is what entered it first. */
  lemma NoStrandedConsumer(steps: seq<Step>)
    requires Legal(EMPTY, steps)
    ensures var s := Exec(EMPTY, steps);
            && (SomeoneWaits(s) ==> |s.queue| <= |SignalledOf(s)|)
            && s.dequeued + s.queue == s.enqueued && s.dequeued <= s.enqueued
  {
    ExecKeeps(EMPTY, steps);
    var s := Exec(EMPTY, steps);
    assert s.enqueued[..|s.dequeued|] == s.dequeued;
  }

  /** Hence an item that is queued beside a waiting consumer has someone coming for it. */
  lemma QueuedItemIsClaimed(steps: seq<Step>) returns (t: Thread)
    requires Legal(EMPTY, steps) && SomeoneWaits(Exec(EMPTY, steps)) && Exec(EMPTY, steps).queue != []
    ensures t in Exec(EMPTY, steps).consumers && Exec(EMPTY, steps).consumers[t] == Signalled
  {
    NoStrandedConsumer(steps);
    assert SignalledOf(Exec(EMPTY, steps)) != {};
    t :| t in SignalledOf(Exec(EMPTY, steps));
  }

  // ---------------------------------------------------------------- the class

  /** The queue with its mutex and its condition variable; each method is one critical
      section. */
  class Queue {
    var nums: seq<int>                    // Q
    var consumers: map<Thread, Consumer>  // who is inside `dequeue`
    ghost var enqueued: seq<int>
    ghost var dequeued: seq<int>

    constructor ()
      ensures View() == EMPTY
    {
      nums, consumers, enqueued, dequeued := [], map[], [], [];
    }

    ghost function View(): State
      reads this
    {
      State(nums, consumers, enqueued, dequeued)
    }

    /** `notify` signals the waiting consumer `picked`, or nobody. */
    method Enqueue(num: int, picked: Thread)
      modifies this
      ensures View() == old(Apply(View(), Step.Enqueue(num, picked)))
    {
      nums, enqueued := nums + [num], enqueued + [num];
      if picked in consumers && consumers[picked] == Waiting {
        consumers := consumers[picked := Signalled];
      }
    }

    /** `dequeue` of thread `t`, entered or resumed after its `wait`, up to its return or to
        its next `wait`. */
    method Dequeue(t: Thread) returns (done: bool, ret: int)
      modifies this
      ensures View() == old(TakeOrWait(View(), t))
      ensures done == (old(nums) != []) && (done ==> ret == old(nums)[0])
    {
      done, ret := nums != [], 0;
      if done {
        ret := nums[0];
        nums, dequeued := nums[1..], dequeued + [ret];
        consumers := consumers - {t};
      } else {
        consumers := consumers[t := Waiting];
      }
    }
  }
}
