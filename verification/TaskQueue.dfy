/** The task queue of one event loop: functors pushed from any thread, a wake-up through an
    eventfd, and a batch that is swapped out and run. A step is one critical section or one
    system call, and the steps of the loop and of the other threads interleave in any order. */
module TaskQueue {

  /** Where the loop's thread is: not in `loop()` yet, blocked in poll(2), running the callbacks of
      active channels, inside `executeQueueFunctions` before the swap, or running the functors
      of the batch. */
  datatype Pc = BeforeLoop | AtPoll | Dispatching | Entered | Running

  type Task = nat
  type Thread = nat

  datatype Loop = Loop(
    pc: Pc,
    flag: bool,             // isExecuteQueueFunc
    queue: seq<Task>,       // funcQueue
    batch: seq<Task>,       // what is left of the swapped batch
    counter: nat,           // the eventfd
    pushed: set<Thread>,    // other threads between their push and their wakeup
    owes: bool,             // the loop's own thread, likewise
    history: seq<Task>,     // every push, in lock order
    executed: seq<Task>,    // every functor called
    before: seq<Task>,      // history: what had been executed at the last swap
    swapped: seq<Task>)     // history: the batch of the last swap

  datatype Step =
    | Push(t: Thread, task: Task)
    | Wakeup(t: Thread)
    | Start
    | PollReturns
    | DrainEventfd
    | OwnPush(task: Task)
    | OwnWakeup
    | Enter
    | Swap
    | RunNext
    | Leave

  predicate Enabled(s: Loop, step: Step) {
    match step
    case Push(t, _) => t !in s.pushed
    case Wakeup(t) => t in s.pushed
    case Start => s.pc == BeforeLoop
    case PollReturns => s.pc == AtPoll
    case DrainEventfd => s.pc == Dispatching && s.counter > 0
    case OwnPush(_) => (s.pc == BeforeLoop || s.pc == Dispatching || s.pc == Running) && !s.owes
    case OwnWakeup => s.owes
    case Enter => s.pc == Dispatching
    case Swap => s.pc == Entered
    case RunNext => s.pc == Running && s.batch != [] && !s.owes
    case Leave => s.pc == Running && s.batch == [] && !s.owes
  }

  /** The step `step`, when `wakeup` writes `value` to the eventfd. */
  function Apply(s: Loop, step: Step, value: nat): Loop
    requires Enabled(s, step)
  {
    match step
    case Push(t, task) => s.(queue := s.queue + [task], history := s.history + [task], pushed := s.pushed + {t})
    case Wakeup(t) => s.(counter := s.counter + value, pushed := s.pushed - {t})
    case Start => s.(pc := AtPoll)
    case PollReturns => s.(pc := Dispatching)
    case DrainEventfd => s.(counter := 0)
    case OwnPush(task) => s.(queue := s.queue + [task], history := s.history + [task], owes := s.flag)
    case OwnWakeup => s.(counter := s.counter + value, owes := false)
    case Enter => s.(pc := Entered, flag := true)
    case Swap => s.(pc := Running, batch := s.queue, queue := [], before := s.executed, swapped := s.queue)
    case RunNext => s.(executed := s.executed + [s.batch[0]], batch := s.batch[1..])
    case Leave => s.(pc := AtPoll, flag := false)
  }

  predicate Legal(s: Loop, steps: seq<Step>, value: nat)
    decreases |steps|
  {
    steps == [] || (Enabled(s, steps[0]) && Legal(Apply(s, steps[0], value), steps[1..], value))
  }

  function Exec(s: Loop, steps: seq<Step>, value: nat): Loop
    requires Legal(s, steps, value)
    decreases |steps|
  {
    if steps == [] then s else Exec(Apply(s, steps[0], value), steps[1..], value)
  }

  // ---------------------------------------------------------------- no lost wake-up

  /** A loop that may block in poll(2) with functors queued will be woken: the eventfd is
      readable, or some thread is about to write to it. */
  predicate NoLostWakeup(s: Loop) {
    s.pc == AtPoll && s.queue != [] ==> s.counter > 0 || s.pushed != {}
  }

  /** The loop at its first poll(2). */
  predicate OnEntry(s: Loop) {
    s.pc == AtPoll && !s.flag && !s.owes && s.batch == [] && NoLostWakeup(s)
  }

  predicate WakeInv(s: Loop) {
    && (s.flag <==> s.pc == Entered || s.pc == Running)
    && (s.owes ==> s.pc == Running)
    && (s.batch != [] ==> s.pc == Running)
    && ((s.pc == AtPoll || s.pc == Running) && s.queue != [] ==> s.counter > 0 || s.pushed != {} || s.owes)
  }

  /** `loop()` is entered with nothing queued, or with a wake-up on its way. */
  predicate Announced(s: Loop) {
    s.queue == [] || s.counter > 0 || s.pushed != {}
  }

  lemma WakeStep(s: Loop, step: Step, value: nat)
    requires WakeInv(s) && value >= 1 && Enabled(s, step) && (step == Start ==> Announced(s))
    ensures WakeInv(Apply(s, step, value))
  {
  }

  lemma {:induction false} WakeInvKept(s: Loop, steps: seq<Step>, value: nat)
    requires WakeInv(s) && s.pc != BeforeLoop && value >= 1 && Legal(s, steps, value)
    ensures WakeInv(Exec(s, steps, value))
    decreases |steps|
  {
    if steps != [] {
      WakeStep(s, steps[0], value);
      WakeInvKept(Apply(s, steps[0], value), steps[1..], value);
    }
  }

  /** With the value 0, the eventfd never becomes readable: no call of `wakeup` has any effect. */
  lemma {:induction false} ZeroNeverWakes(s: Loop, steps: seq<Step>)
    requires s.counter == 0 && Legal(s, steps, 0)
    ensures Exec(s, steps, 0).counter == 0
    decreases |steps|
  {
    if steps != [] {
      ZeroNeverWakes(Apply(s, steps[0], 0), steps[1..]);
    }
  }

  /** The run that loses a wake-up when `wakeup` writes the 0 of the source: another thread
      queues one functor and is done, and the loop stays in poll(2) beside it. */
  lemma ZeroLosesAWakeup() returns (s: Loop, steps: seq<Step>)
    ensures OnEntry(s) && Legal(s, steps, 0)
    ensures !NoLostWakeup(Exec(s, steps, 0))
  {
    s := Loop(AtPoll, false, [], [], 0, {}, false, [], [], [], []);
    var s1 := Apply(s, Push(1, 7), 0);
    var s2 := Apply(s1, Wakeup(1), 0);
    assert s2.pushed == {} && s2.queue == [7];
    assert Legal(s2, [], 0) && Exec(s2, [], 0) == s2;
    assert Legal(s1, [Wakeup(1)], 0) && Exec(s1, [Wakeup(1)], 0) == s2 by {
      assert [Wakeup(1)][1..] == [];
    }
    steps := [Push(1, 7), Wakeup(1)];
    assert steps[1..] == [Wakeup(1)];
  }

  /** No run loses a wake-up exactly if `wakeup` writes at least 1. */
  lemma NoLostWakeupIff(value: nat)
    ensures value >= 1 <==>
            forall s, steps :: OnEntry(s) && Legal(s, steps, value) ==> NoLostWakeup(Exec(s, steps, value))
  {
    if value >= 1 {
      forall s, steps | OnEntry(s) && Legal(s, steps, value)
        ensures NoLostWakeup(Exec(s, steps, value))
      {
        WakeInvKept(s, steps, value);
      }
    } else {
      var s, steps := ZeroLosesAWakeup();
    }
  }

  // ---------------------------------------------------------------- the eventfd

  predicate IsWakeup(step: Step) {
    step.Wakeup? || step.OwnWakeup?
  }

  /** How many calls of `wakeup` come after the last read of the eventfd. */
  function WakeupsSinceRead(steps: seq<Step>): nat {
    if steps == [] then 0
    else
      WakeupsSinceRead(steps[1..]) + (if DrainEventfd !in steps && IsWakeup(steps[0]) then 1 else 0)
  }

  /** The eventfd holds what was written since the last read, in every run. */
  lemma {:induction false} EventfdCounts(s: Loop, steps: seq<Step>, value: nat)
    requires Legal(s, steps, value)
    ensures Exec(s, steps, value).counter ==
            (if DrainEventfd in steps then 0 else s.counter) + value * WakeupsSinceRead(steps)
    decreases |steps|
  {
    if steps != [] {
      CounterStep(s, steps[0], value);
      assert DrainEventfd in steps <==> DrainEventfd == steps[0] || DrainEventfd in steps[1..];
      hide Apply;
      EventfdCounts(Apply(s, steps[0], value), steps[1..], value);
      hide Legal, Exec;
      OneMore(value, WakeupsSinceRead(steps[1..]));
    }
  }

  lemma CounterStep(s: Loop, step: Step, value: nat)
    requires Enabled(s, step)
    ensures Apply(s, step, value).counter ==
            if step == DrainEventfd then 0 else s.counter + (if IsWakeup(step) then value else 0)
  {
  }

  lemma OneMore(value: nat, k: nat)
    ensures value * (k + 1) == value * k + value
  {
  }

  lemma {:induction false} NoWakeup(steps: seq<Step>)
    requires forall i :: 0 <= i < |steps| ==> !IsWakeup(steps[i])
    ensures WakeupsSinceRead(steps) == 0
    decreases |steps|
  {
    if steps != [] {
      assert forall i :: 0 <= i < |steps| - 1 ==> steps[1..][i] == steps[i + 1];
      NoWakeup(steps[1..]);
    }
  }

  /** One read empties it, so that poll(2) reports it again only after another wake-up: the loop
      does not spin. */
  lemma ReadSettles(s: Loop, steps: seq<Step>, value: nat)
    requires Enabled(s, DrainEventfd) && Legal(Apply(s, DrainEventfd, value), steps, value)
    requires forall i :: 0 <= i < |steps| ==> !IsWakeup(steps[i])
    ensures Exec(Apply(s, DrainEventfd, value), steps, value).counter == 0
  {
    NoWakeup(steps);
    EventfdCounts(Apply(s, DrainEventfd, value), steps, value);
  }

  // ---------------------------------------------------------------- from construction

  /** The event loop as its constructor leaves it. */
  const CONSTRUCTED := Loop(BeforeLoop, false, [], [], 0, {}, false, [], [], [], [])

  /** At no point of the run the loop may block with an unannounced functor. */
  predicate NeverLost(s: Loop, steps: seq<Step>, value: nat)
    requires Legal(s, steps, value)
    decreases |steps|
  {
    NoLostWakeup(s) && (steps != [] ==> NeverLost(Apply(s, steps[0], value), steps[1..], value))
  }

  /** Where the run enters `loop()`, it does so announced. */
  predicate StartsAnnounced(s: Loop, steps: seq<Step>, value: nat)
    requires Legal(s, steps, value)
    decreases |steps|
  {
    steps != [] ==>
      (steps[0] == Start ==> Announced(s)) && StartsAnnounced(Apply(s, steps[0], value), steps[1..], value)
  }

  lemma {:induction false} NeverLostFrom(s: Loop, steps: seq<Step>, value: nat)
    requires WakeInv(s) && value >= 1 && Legal(s, steps, value)
    ensures NeverLost(s, steps, value) <==> StartsAnnounced(s, steps, value)
    decreases |steps|
  {
    if steps != [] && (steps[0] == Start ==> Announced(s)) {
      WakeStep(s, steps[0], value);
      NeverLostFrom(Apply(s, steps[0], value), steps[1..], value);
    }
  }

  /** The exact condition on a run from construction, for every value from 1 on: no wake-up is
      ever lost if and only if `loop()` was entered announced. */
  lemma NeverLostIff(steps: seq<Step>, value: nat)
    requires value >= 1 && Legal(CONSTRUCTED, steps, value)
    ensures NeverLost(CONSTRUCTED, steps, value) <==> StartsAnnounced(CONSTRUCTED, steps, value)
  {
    NeverLostFrom(CONSTRUCTED, steps, value);
  }

  predicate OwnPushes(steps: seq<Step>) {
    exists i :: 0 <= i < |steps| && steps[i].OwnPush?
  }

  predicate ForeignPushes(steps: seq<Step>) {
    exists i :: 0 <= i < |steps| && steps[i].Push?
  }

  lemma {:induction false} BeforeLoopCounts(s: Loop, steps: seq<Step>, value: nat)
    requires s.pc == BeforeLoop && !s.flag && !s.owes && value >= 1 && Legal(s, steps, value) && Start !in steps
    ensures var s' := Exec(s, steps, value);
            && s'.pc == BeforeLoop
            && (s'.queue == [] <==> s.queue == [] && !OwnPushes(steps) && !ForeignPushes(steps))
            && (s'.counter > 0 || s'.pushed != {} <==> s.counter > 0 || s.pushed != {} || ForeignPushes(steps))
    decreases |steps|
  {
    if steps != [] {
      var rest := steps[1..];
      assert forall i :: 0 <= i < |rest| ==> rest[i] == steps[i + 1];
      assert forall i :: 0 < i < |steps| ==> steps[i] == rest[i - 1];
      BeforeLoopCounts(Apply(s, steps[0], value), rest, value);
      assert OwnPushes(steps) <==> steps[0].OwnPush? || OwnPushes(rest);
      assert ForeignPushes(steps) <==> steps[0].Push? || ForeignPushes(rest);
    }
  }

  /** What that means for the callers: the loop is entered announced exactly unless its own
      thread has queued a functor before and no other thread has. */
  lemma AnnouncedIff(steps: seq<Step>, value: nat)
    requires value >= 1 && Legal(CONSTRUCTED, steps, value) && Start !in steps
    ensures Announced(Exec(CONSTRUCTED, steps, value)) <==> !OwnPushes(steps) || ForeignPushes(steps)
  {
    BeforeLoopCounts(CONSTRUCTED, steps, value);
  }

  /** A run that loses its wake-up, whatever value is written: one functor, queued before `loop()`. */
  lemma PushBeforeLoopIsLost(task: Task, value: nat) returns (steps: seq<Step>)
    ensures steps == [OwnPush(task), Start] && Legal(CONSTRUCTED, steps, value)
    ensures !NoLostWakeup(Exec(CONSTRUCTED, steps, value))
  {
    steps := [OwnPush(task)] + [Start];
    var s1 := Apply(CONSTRUCTED, OwnPush(task), value);
    assert steps[1..] == [Start] && [Start][1..] == [];
    assert Legal(Apply(s1, Start, value), [], value);
    assert Legal(s1, [Start], value) && Exec(s1, [Start], value) == Exec(Apply(s1, Start, value), [], value);
    assert s1.queue == [task];
  }

  // ---------------------------------------------------------------- the task log

  /** What was executed, what is left of the batch and what is queued are the pushes, in
      order. While a batch runs, what ran of it and what is left of it are what was swapped. */
  predicate LogInv(s: Loop) {
    && s.executed + s.batch + s.queue == s.history
    && (s.pc == Running ==> s.executed + s.batch == s.before + s.swapped)
    && (s.batch != [] ==> s.pc == Running)
  }

  lemma LogStep(s: Loop, step: Step, value: nat)
    requires LogInv(s) && Enabled(s, step)
    ensures LogInv(Apply(s, step, value))
  {
  }

  /** In every run the functors executed are a prefix of the pushes: in the order of the lock,
      each push once, none invented. */
  lemma {:induction false} FifoExactlyOnce(s: Loop, steps: seq<Step>, value: nat)
    requires LogInv(s) && Legal(s, steps, value)
    ensures var s' := Exec(s, steps, value);
            LogInv(s') && s'.executed + s'.batch + s'.queue == s'.history && s'.executed <= s'.history
    decreases |steps|
  {
    if steps != [] {
      LogStep(s, steps[0], value);
      FifoExactlyOnce(Apply(s, steps[0], value), steps[1..], value);
    } else {
      assert s.history[..|s.executed|] == s.executed;
    }
  }

  /** A call of `executeQueueFunctions` that ends has run exactly the functors present at its
      swap, however often they queued themselves again. */
  lemma BatchRunsExactly(s: Loop, steps: seq<Step>, value: nat)
    requires LogInv(s) && Legal(s, steps, value)
    requires Enabled(Exec(s, steps, value), Leave)
    ensures var s' := Exec(s, steps, value); s'.executed == s'.before + s'.swapped
  {
    FifoExactlyOnce(s, steps, value);
    var s' := Exec(s, steps, value);
    assert s'.executed + s'.batch == s'.executed;
  }

  // ---------------------------------------------------------------- the class

  lemma {:induction false} ExecAppend(s: Loop, a: seq<Step>, b: seq<Step>, value: nat)
    requires Legal(s, a, value) && Legal(Exec(s, a, value), b, value)
    ensures Legal(s, a + b, value) && Exec(s, a + b, value) == Exec(Exec(s, a, value), b, value)
    decreases |a|
  {
    if a == [] {
      assert a + b == b;
    } else {
      assert (a + b)[0] == a[0] && (a + b)[1..] == a[1..] + b;
      ExecAppend(Apply(s, a[0], value), a[1..], b, value);
    }
  }

  lemma ExecOne(s: Loop, steps: seq<Step>, step: Step, value: nat)
    requires Legal(s, steps, value) && Enabled(Exec(s, steps, value), step)
    ensures Legal(s, steps + [step], value)
    ensures Exec(s, steps + [step], value) == Apply(Exec(s, steps, value), step, value)
  {
    var s' := Exec(s, steps, value);
    assert [step][1..] == [];
    assert Legal(Apply(s', step, value), [], value);
    assert Exec(s', [step], value) == Exec(Apply(s', step, value), [], value);
    ExecAppend(s, steps, [step], value);
  }

  lemma ApplyRunNext(s: Loop, value: nat)
    requires Enabled(s, RunNext)
    ensures Apply(s, RunNext, value) == s.(executed := s.executed + [s.batch[0]], batch := s.batch[1..])
  {
  }

  lemma ApplyOwn(s: Loop, task: Task, value: nat)
    ensures Enabled(s, OwnPush(task)) ==>
      Apply(s, OwnPush(task), value) ==
      s.(queue := s.queue + [task], history := s.history + [task], owes := s.flag)
    ensures s.owes ==>
      Enabled(s, OwnWakeup) && Apply(s, OwnWakeup, value) == s.(counter := s.counter + value, owes := false)
  {
  }

  /** What the functors of `batch` queue when they run, one after the other. */
  function Requeued(batch: seq<Task>, pushes: Task -> seq<Task>): seq<Task> {
    if batch == [] then [] else Requeued(batch[..|batch| - 1], pushes) + pushes(batch[|batch| - 1])
  }

  lemma NothingRequeued(batch: seq<Task>, pushes: Task -> seq<Task>)
    ensures Requeued(batch[..0], pushes) == []
  {
  }

  lemma RequeuedStep(batch: seq<Task>, i: nat, pushes: Task -> seq<Task>)
    requires i < |batch|
    ensures Requeued(batch[..i + 1], pushes) == Requeued(batch[..i], pushes) + pushes(batch[i])
  {
    assert batch[..i + 1][..i] == batch[..i];
  }

  /** The functors a run queues, and those of them that the loop's own thread queues. */
  function PushedBy(steps: seq<Step>, foreign: bool): seq<Task> {
    if steps == [] then []
    else
      var last := steps[|steps| - 1];
      PushedBy(steps[..|steps| - 1], foreign) +
      (if last.OwnPush? || (foreign && last.Push?) then [last.task] else [])
  }

  lemma {:induction false} PushedAppend(a: seq<Step>, b: seq<Step>, foreign: bool)
    ensures PushedBy(a + b, foreign) == PushedBy(a, foreign) + PushedBy(b, foreign)
    decreases |b|
  {
    if b == [] {
      assert a + b == a;
    } else {
      var n := |b| - 1;
      assert (a + b)[..|a + b| - 1] == a + b[..n] && (a + b)[|a + b| - 1] == b[n];
      PushedAppend(a, b[..n], foreign);
    }
  }

  lemma PushedOne(step: Step, foreign: bool)
    ensures PushedBy([step], foreign) == if step.OwnPush? || (foreign && step.Push?) then [step.task] else []
  {
    assert [step][..0] == [];
  }

  /** `steps` lead from `s` to `s'`; `own` is what the loop's thread queues on the way, and
      `pushed` what anybody does. */
  predicate Leads(s: Loop, steps: seq<Step>, s': Loop, value: nat, own: seq<Task>, pushed: seq<Task>) {
    && Legal(s, steps, value) && Exec(s, steps, value) == s'
    && PushedBy(steps, false) == own && PushedBy(steps, true) == pushed
  }

  lemma LeadsNowhere(s: Loop, value: nat)
    ensures Leads(s, [], s, value, [], [])
  {
  }

  lemma LeadsOne(s: Loop, step: Step, value: nat)
    requires Enabled(s, step)
    ensures Leads(s, [step], Apply(s, step, value), value,
                  if step.OwnPush? then [step.task] else [], if step.OwnPush? || step.Push? then [step.task] else [])
  {
    ExecOne(s, [], step, value);
    assert [] + [step] == [step];
    PushedOne(step, false);
    PushedOne(step, true);
  }

  lemma LeadsOn(s: Loop, a: seq<Step>, s1: Loop, b: seq<Step>, s2: Loop, value: nat,
                own1: seq<Task>, pushed1: seq<Task>, own2: seq<Task>, pushed2: seq<Task>)
    requires Leads(s, a, s1, value, own1, pushed1) && Leads(s1, b, s2, value, own2, pushed2)
    ensures Leads(s, a + b, s2, value, own1 + own2, pushed1 + pushed2)
  {
    ExecAppend(s, a, b, value);
    PushedAppend(a, b, false);
    PushedAppend(a, b, true);
  }

  const NONE: seq<Task> := []

  lemma Trim(a: seq<Task>)
    ensures a + NONE == a && NONE + a == a
  {
  }

  /** What another thread does: the two halves of its `queueInLoop`. */
  datatype Outside = Pushes(t: Thread, task: Task) | Wakes(t: Thread)

  /** The methods return the steps of the machine that they take, so that what is proved of
      every run holds of every sequence of calls. Whatever other threads do while a method
      runs, `world` says at which of its moments. */
  class EventLoop {
    var funcQueue: seq<Task>
    var isExecuteQueueFunc: bool
    var counter: nat  // of wakeupFd_
    const value: nat  // what wakeup() writes
    const world: nat -> seq<Outside>
    var moment: nat
    ghost var pc: Pc
    ghost var batch: seq<Task>
    var pushed: set<Thread>  // other threads inside queueInLoop
    ghost var owes: bool
    ghost var history: seq<Task>
    ghost var executed: seq<Task>
    ghost var before: seq<Task>
    ghost var swapped: seq<Task>

    constructor (value: nat, world: nat -> seq<Outside>)
      ensures View() == CONSTRUCTED && this.value == value && this.world == world
    {
      this.value, this.world := value, world;
      funcQueue, isExecuteQueueFunc, counter, moment := [], false, 0, 0;
      pc, batch, pushed, owes := BeforeLoop, [], {}, false;
      history, executed, before, swapped := [], [], [], [];
    }

    ghost function View(): Loop
      reads this
    {
      Loop(pc, isExecuteQueueFunc, funcQueue, batch, counter, pushed, owes, history, executed, before, swapped)
    }

    method Wakeup()
      modifies this`counter
      ensures counter == old(counter) + value
    {
      counter := counter + value;
    }

    /** `handleRead` of the wake-up channel. */
    method HandleRead()
      requires Enabled(View(), DrainEventfd)
      modifies this`counter
      ensures View() == old(Apply(View(), DrainEventfd, value)) && counter == 0
    {
      counter := 0;
    }

    /** The first half of `queueInLoop`, under the mutex. */
    method PushBack(cb: Task)
      modifies this`funcQueue, this`history
      ensures funcQueue == old(funcQueue) + [cb] && history == old(history) + [cb]
    {
      funcQueue, history := funcQueue + [cb], history + [cb];
    }

    /** One thing that another thread does, if it can. */
    method OneOutside(o: Outside) returns (ghost steps: seq<Step>, ghost more: seq<Task>)
      modifies this`funcQueue, this`counter, this`history, this`pushed
      ensures Leads(old(View()), steps, View(), value, [], more) && funcQueue == old(funcQueue) + more
      ensures counter >= old(counter)
    {
      ghost var s := View();
      steps, more := [], [];
      if o.Pushes? && o.t !in pushed {
        LeadsOne(s, Push(o.t, o.task), value);
        PushBack(o.task);
        pushed := pushed + {o.t};
        steps, more := [Push(o.t, o.task)], [o.task];
      } else if o.Wakes? && o.t in pushed {
        LeadsOne(s, Step.Wakeup(o.t), value);
        Wakeup();
        pushed := pushed - {o.t};
        steps := [Step.Wakeup(o.t)];
      } else {
        LeadsNowhere(s, value);
      }
    }

    /** Other threads do what they do at this moment, as far as they can. */
    method Meanwhile() returns (ghost steps: seq<Step>, ghost more: seq<Task>)
      modifies this`funcQueue, this`counter, this`history, this`pushed, this`moment
      ensures Leads(old(View()), steps, View(), value, [], more) && funcQueue == old(funcQueue) + more
      ensures counter >= old(counter)
    {
      var todo := world(moment);
      moment := moment + 1;
      ghost var s := View();
      steps, more := [], [];
      LeadsNowhere(s, value);
      hide Leads;
      for i := 0 to |todo|
        invariant Leads(s, steps, View(), value, [], more)
        invariant View() == s.(queue := funcQueue, counter := counter, history := history, pushed := pushed)
        invariant funcQueue == s.queue + more && counter >= s.counter
      {
        ghost var s1 := View();
        var one, task := OneOutside(todo[i]);
        LeadsOn(s, steps, s1, one, View(), value, [], more, [], task);
        assert NONE + NONE == NONE;
        steps, more := steps + one, more + task;
      }
    }

    /** `queueInLoop` on the loop's thread, or on thread `t`. Only inside `executeQueueFunctions`
        does the loop's own thread write a wake-up. */
    method QueueInLoop(cb: Task, inLoopThread: bool, t: Thread) returns (ghost steps: seq<Step>, ghost more: seq<Task>)
      requires Enabled(View(), if inLoopThread then OwnPush(cb) else Push(t, cb)) && !owes
      modifies this`funcQueue, this`counter, this`history, this`pushed, this`moment, this`owes
      ensures Leads(old(View()), steps, View(), value, if inLoopThread then [cb] else [], [cb] + more) && !owes
      ensures funcQueue == old(funcQueue) + [cb] + more
      ensures !inLoopThread ==> more == [] && counter == old(counter) + value && pushed == old(pushed)
    {
      if inLoopThread {
        steps, more := QueueFromInside(cb);
      } else {
        steps := QueueFromOutside(t, cb);
        more := [];
        assert [cb] + NONE == [cb];
      }
    }

    method QueueFromOutside(t: Thread, cb: Task) returns (ghost steps: seq<Step>)
      requires Enabled(View(), Push(t, cb))
      modifies this`funcQueue, this`counter, this`history, this`pushed
      ensures Leads(old(View()), steps, View(), value, [], [cb])
      ensures View() == old(Apply(Apply(View(), Push(t, cb), value), Step.Wakeup(t), value))
    {
      ghost var s := View();
      LeadsOne(s, Push(t, cb), value);
      ghost var s1 := Apply(s, Push(t, cb), value);
      LeadsOne(s1, Step.Wakeup(t), value);
      ghost var s2 := Apply(s1, Step.Wakeup(t), value);
      LeadsOn(s, [Push(t, cb)], s1, [Step.Wakeup(t)], s2, value, [], [cb], [], []);
      steps := [Push(t, cb)] + [Step.Wakeup(t)];
      assert [cb] + [] == [cb];
      hide Leads;
      PushBack(cb);
      Wakeup();
    }

    method QueueFromInside(cb: Task) returns (ghost steps: seq<Step>, ghost more: seq<Task>)
      requires Enabled(View(), OwnPush(cb))
      modifies this`funcQueue, this`counter, this`history, this`pushed, this`moment, this`owes
      ensures Leads(old(View()), steps, View(), value, [cb], [cb] + more) && !owes
      ensures funcQueue == old(funcQueue) + [cb] + more
    {
      ghost var s := View();
      LeadsOne(s, OwnPush(cb), value);
      ApplyOwn(s, cb, value);
      hide Leads, Apply;
      PushBack(cb);
      owes := isExecuteQueueFunc;
      ghost var s1 := View();
      ghost var one;
      one, more := Meanwhile();
      LeadsOn(s, [OwnPush(cb)], s1, one, View(), value, [cb], [cb], NONE, more);
      steps := [OwnPush(cb)] + one;
      Trim([cb]);
      if isExecuteQueueFunc {
        steps := WakeFromInside(s, steps, [cb], [cb] + more);
      }
    }

    /** The wake-up that is owed. */
    method WakeFromInside(ghost s: Loop, ghost before: seq<Step>, ghost own: seq<Task>, ghost all: seq<Task>)
      returns (ghost steps: seq<Step>)
      requires owes && Leads(s, before, View(), value, own, all)
      modifies this`counter, this`owes
      ensures Leads(s, steps, View(), value, own, all) && !owes
    {
      ghost var s2 := View();
      ApplyOwn(s2, 0, value);
      LeadsOne(s2, OwnWakeup, value);
      hide Leads, Apply;
      Wakeup();
      owes := false;
      LeadsOn(s, before, s2, [OwnWakeup], View(), value, own, all, NONE, NONE);
      Trim(own);
      Trim(all);
      steps := before + [OwnWakeup];
    }

    /** What one callback or functor queues while it runs. */
    method QueueAll(todo: seq<Task>) returns (ghost steps: seq<Step>, ghost more: seq<Task>)
      requires (pc == Dispatching || pc == Running) && !owes
      modifies this`funcQueue, this`counter, this`history, this`pushed, this`moment, this`owes
      ensures Leads(old(View()), steps, View(), value, todo, more) && !owes
      ensures funcQueue == old(funcQueue) + more && forall i :: 0 <= i < |todo| ==> todo[i] in more
    {
      ghost var s := View();
      steps, more := [], [];
      LeadsNowhere(s, value);
      hide Leads;
      for i := 0 to |todo|
        invariant Leads(s, steps, View(), value, todo[..i], more) && !owes
        invariant funcQueue == s.queue + more && forall k :: 0 <= k < i ==> todo[k] in more
      {
        ghost var s1 := View();
        var one, task := QueueInLoop(todo[i], true, 0);
        LeadsOn(s, steps, s1, one, View(), value, todo[..i], more, [todo[i]], [todo[i]] + task);
        assert todo[..i] + [todo[i]] == todo[..i + 1];
        steps, more := steps + one, more + ([todo[i]] + task);
      }
      assert todo[..|todo|] == todo;
    }

    /** The next functor of the batch. */
    method RunNextFunctor(func: Task, pushes: Task -> seq<Task>) returns (ghost steps: seq<Step>, ghost more: seq<Task>)
      requires Enabled(View(), RunNext) && func == batch[0]
      modifies this`funcQueue, this`counter, this`history, this`pushed, this`moment, this`owes
      modifies this`executed, this`batch
      ensures Leads(old(View()), steps, View(), value, pushes(func), more) && !owes
      ensures executed == old(executed) + [func] && batch == old(batch)[1..]
      ensures funcQueue == old(funcQueue) + more
    {
      ghost var s := View();
      LeadsOne(s, RunNext, value);
      ApplyRunNext(s, value);
      hide Leads, Apply;
      executed, batch := executed + [func], batch[1..];
      ghost var s1 := View();
      ghost var one;
      one, more := QueueAll(pushes(func));
      LeadsOn(s, [RunNext], s1, one, View(), value, [], [], pushes(func), more);
      assert [] + pushes(func) == pushes(func) && [] + more == more;
      steps := [RunNext] + one;
    }

    /** The flag is set, and other threads go on. */
    method Announce() returns (ghost steps: seq<Step>, ghost more: seq<Task>)
      requires pc == Dispatching && !owes && batch == []
      modifies this`funcQueue, this`counter, this`history, this`pushed, this`moment, this`pc, this`isExecuteQueueFunc
      ensures Leads(old(View()), steps, View(), value, [], more)
      ensures funcQueue == old(funcQueue) + more && pc == Entered && isExecuteQueueFunc
    {
      ghost var s := View();
      LeadsOne(s, Enter, value);
      hide Leads;
      isExecuteQueueFunc := true;
      pc := Entered;
      ghost var s1, one := View(), [Enter];
      steps, more := Meanwhile();
      LeadsOn(s, one, s1, steps, View(), value, [], [], [], more);
      assert NONE + NONE == NONE && NONE + more == more;
      steps := one + steps;
    }

    /** The swap, under the mutex. */
    method SwapOut() returns (tmp: seq<Task>)
      requires Enabled(View(), Swap)
      modifies this`funcQueue, this`pc, this`batch, this`before, this`swapped
      ensures View() == old(Apply(View(), Swap, value)) && tmp == old(funcQueue)
    {
      tmp := [];
      funcQueue, tmp := tmp, funcQueue;
      pc, batch, before, swapped := Running, tmp, executed, tmp;
    }

    /** The way into the batch. */
    method Begin() returns (tmp: seq<Task>, ghost steps: seq<Step>, ghost more: seq<Task>)
      requires pc == Dispatching && !owes && batch == []
      modifies this
      ensures Leads(old(View()), steps, View(), value, [], more)
      ensures tmp == old(funcQueue) + more == batch == swapped && funcQueue == [] && executed == old(executed)
      ensures pc == Running && !owes
    {
      ghost var s := View();
      steps, more := Announce();
      ghost var s1 := View();
      LeadsOne(s1, Swap, value);
      hide Leads;
      tmp := SwapOut();
      LeadsOn(s, steps, s1, [Swap], View(), value, [], more, [], []);
      assert NONE + NONE == NONE && more + NONE == more;
      steps := steps + [Swap];
    }

    /** Runs what is queued at the swap and leaves what is queued afterwards, each with its
        wake-up. Any number of functors may queue themselves again: the call ends. `early` and
        `late` are what was pushed, by anybody, before and after the swap. */
    method ExecuteQueueFunctions(pushes: Task -> seq<Task>)
      returns (ghost steps: seq<Step>, ghost early: seq<Task>, ghost late: seq<Task>)
      requires pc == Dispatching && !owes && batch == []
      modifies this
      ensures Leads(old(View()), steps, View(), value, Requeued(swapped, pushes), early + late)
      ensures swapped == old(funcQueue) + early && executed == old(executed) + swapped && funcQueue == late
      ensures pc == AtPoll && !owes && batch == []
    {
      ghost var s := View();
      hide Leads, Apply, Requeued;
      var tmp;
      tmp, steps, early := Begin();
      late := [];
      assert Requeued(tmp[..0], pushes) == [] by { NothingRequeued(tmp, pushes); }
      assert early + [] == early;
      for i := 0 to |tmp|
        invariant Leads(s, steps, View(), value, Requeued(tmp[..i], pushes), early + late)
        invariant pc == Running && !owes && batch == tmp[i..] && swapped == tmp && funcQueue == late
        invariant executed == s.executed + tmp[..i]
      {
        ghost var s1 := View();
        var one, more := RunNextFunctor(tmp[i], pushes);
        RequeuedStep(tmp, i, pushes);
        LeadsOn(s, steps, s1, one, View(), value, Requeued(tmp[..i], pushes), early + late, pushes(tmp[i]), more);
        assert early + late + more == early + (late + more);
        steps, late := steps + one, late + more;
      }
      assert tmp[..|tmp|] == tmp;
      Finish(s, steps, Requeued(tmp, pushes), early + late);
      steps := steps + [Leave];
      isExecuteQueueFunc := false;
      pc := AtPoll;
    }

    /** The last step of a call. */
    lemma Finish(s: Loop, steps: seq<Step>, own: seq<Task>, more: seq<Task>)
      requires Leads(s, steps, View(), value, own, more) && Enabled(View(), Leave)
      ensures Leads(s, steps + [Leave], View().(pc := AtPoll, flag := false), value, own, more)
    {
      LeadsOne(View(), Leave, value);
      hide Leads;
      LeadsOn(s, steps, View(), [Leave], View().(pc := AtPoll, flag := false), value, own, more, [], []);
      assert own + [] == own && more + [] == more;
    }

    /** `loop` is entered. */
    method Start()
      requires Enabled(View(), Step.Start)
      modifies this`pc
      ensures View() == old(Apply(View(), Step.Start, value))
    {
      pc := AtPoll;
    }

    /** poll(2) returns, and the eventfd is read if it was reported. */
    method Poll(woken: bool) returns (ghost steps: seq<Step>)
      requires pc == AtPoll && (woken ==> counter > 0)
      modifies this`pc, this`counter
      ensures Leads(old(View()), steps, View(), value, [], [])
      ensures pc == Dispatching
    {
      ghost var s := View();
      LeadsOne(s, PollReturns, value);
      steps := [PollReturns];
      pc := Dispatching;
      if woken {
        ghost var s1 := View();
        LeadsOne(s1, DrainEventfd, value);
        HandleRead();
        hide Leads;
        LeadsOn(s, steps, s1, [DrainEventfd], View(), value, [], [], [], []);
        assert NONE + NONE == NONE;
        steps := steps + [DrainEventfd];
      }
    }

    /** One turn of `loop`: poll(2) returns, the active channels queue `dispatched`, and then
        the functors run: those queued before, those queued by the dispatch, and those that
        other threads have pushed up to the swap. */
    method Turn(woken: bool, dispatched: seq<Task>, pushes: Task -> seq<Task>)
      returns (ghost steps: seq<Step>, ghost early: seq<Task>, ghost late: seq<Task>)
      requires pc == AtPoll && !owes && batch == [] && (woken ==> counter > 0)
      modifies this
      ensures Leads(old(View()), steps, View(), value, dispatched + Requeued(swapped, pushes), early + late)
      ensures swapped == old(funcQueue) + early && (forall i :: 0 <= i < |dispatched| ==> dispatched[i] in early)
      ensures executed == old(executed) + swapped && funcQueue == late
      ensures pc == AtPoll && !owes && batch == []
    {
      ghost var s := View();
      hide Leads, Apply;
      steps := Poll(woken);
      ghost var s1 := View();
      var one, more := QueueAll(dispatched);
      LeadsOn(s, steps, s1, one, View(), value, [], [], dispatched, more);
      assert [] + dispatched == dispatched && [] + more == more;
      ghost var s2 := View();
      ghost var rest;
      rest, early, late := ExecuteQueueFunctions(pushes);
      LeadsOn(s, steps + one, s2, rest, View(), value, dispatched, more, Requeued(swapped, pushes), early + late);
      assert more + (early + late) == (more + early) + late;
      steps, early := steps + one + rest, more + early;
    }

    /** On the loop's thread the functor runs at once, ahead of everything queued; on another
        it is queued and announced. */
    method RunInLoop(cb: Task, inLoopThread: bool, t: Thread, pushes: Task -> seq<Task>)
      returns (called: seq<Task>, ghost steps: seq<Step>, ghost more: seq<Task>)
      requires !owes && if inLoopThread then pc == Dispatching || pc == Running else t !in pushed
      modifies this`funcQueue, this`counter, this`history, this`pushed, this`moment, this`owes
      ensures Leads(old(View()), steps, View(), value, if inLoopThread then pushes(cb) else [], more) && !owes
      ensures called == (if inLoopThread then [cb] else []) && funcQueue == old(funcQueue) + more
      ensures !inLoopThread ==> more == [cb] && counter == old(counter) + value && pushed == old(pushed)
    {
      if inLoopThread {
        called := [cb];
        steps, more := QueueAll(pushes(cb));
      } else {
        called := [];
        steps, more := QueueInLoop(cb, false, t);
        more := [cb] + more;
      }
    }
  }
}
