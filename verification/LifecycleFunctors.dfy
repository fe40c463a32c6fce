/** What becomes of the functors that other threads post, and of what the callbacks post: no
    functor is lost on its way, none runs twice, and none runs that nobody has posted. */
module LifecycleFunctors {
  import opened PollTable
  import opened Connection
  import opened Stream
  import opened Naming
  import opened Lifecycle
  import opened LifecycleInv
  import opened LifecycleSafety

  // ---------------------------------------------------------------- counting them

  function Total(loops: seq<Loop>, t: Task): nat {
    if loops == [] then 0 else Queued(loops[0], t) + Total(loops[1..], t)
  }

  /** How many copies of `t` are about to be posted, queued or in a batch. */
  function InFlight(w: World, t: Task): nat
    requires w.World?
  {
    w.pending[t] + Total(w.loops, t)
  }

  lemma {:induction false} TotalOfOne(loops: seq<Loop>, l: nat, p: Loop, t: Task)
    requires l < |loops|
    ensures Total(loops[l := p], t) + Queued(loops[l], t) == Total(loops, t) + Queued(p, t)
    decreases |loops|
  {
    if l == 0 {
      assert loops[0 := p][1..] == loops[1..];
    } else {
      assert loops[l := p][1..] == loops[1..][l - 1 := p];
      TotalOfOne(loops[1..], l - 1, p, t);
    }
  }

  lemma {:induction false} TotalOfSame(a: seq<Loop>, b: seq<Loop>, t: Task)
    requires |a| == |b| && forall l :: 0 <= l < |a| ==> Queued(a[l], t) == Queued(b[l], t)
    ensures Total(a, t) == Total(b, t)
    decreases |a|
  {
    if a != [] {
      assert forall l :: 0 <= l < |a| - 1 ==> a[1..][l] == a[l + 1] && b[1..][l] == b[l + 1];
      TotalOfSame(a[1..], b[1..], t);
    }
  }

  /** No functor of another thread comes or goes. */
  ghost predicate LateQuiet(w: World, w': World) {
    && w.World? && w'.World? && w'.pending == w.pending && |w'.loops| == |w.loops|
    && forall l, t :: 0 <= l < |w.loops| && IsLate(t) ==> Queued(w'.loops[l], t) == Queued(w.loops[l], t)
  }

  lemma QuietFlight(w: World, w': World, t: Task)
    requires LateQuiet(w, w') && IsLate(t)
    ensures InFlight(w', t) == InFlight(w, t)
  {
    TotalOfSame(w.loops, w'.loops, t);
    hide Queued;
  }

  // ---------------------------------------------------------------- the callbacks are quiet

  lemma PostIsQuiet(w: World, l: nat, t: Task)
    requires w.World? && l < |w.loops| && !IsLate(t)
    ensures LateQuiet(w, Post(w, l, t))
  {
    PostedOne(w.loops[l], Post(w, l, t).loops[l], t);
    hide Queued;
  }

  lemma Chained(a: World, b: World, c: World)
    requires LateQuiet(a, b) && LateQuiet(b, c)
    ensures LateQuiet(a, c)
  {
    hide Queued;
  }

  /** A handler that moves its connection and its table, and may queue a write-complete functor. */
  lemma AfterIsQuiet(w: World, l: nat, c: nat, e: Effect<nat>)
    requires w.World? && l < |w.loops| && c < |w.conns|
    ensures LateQuiet(w, After(w, l, c, e))
  {
    var w' := WithLoop(WithConn(w, c, e.conn), l, w.loops[l].(table := e.table));
    assert LateQuiet(w, w');
    if e.queued {
      PostIsQuiet(w', l, UserTask);
      Chained(w, w', Post(w', l, UserTask));
    }
    hide Queued;
  }

  lemma RemoveIsQuiet(w: World, c: nat)
    requires w.World? && RunRemove(w, 0, c).World?
    ensures LateQuiet(w, RunRemove(w, 0, c))
  {
    hide ConnName, Queued;
    assert ConnName(w.server, c) in w.registry;
    RunRemoveIs(w, c);
    hide RunRemove;
    PostIsQuiet(Unregistered(w, c), w.conns[c].loop, Destroy(c));
  }

  lemma CloseIsQuiet(w: World, l: nat, c: nat)
    requires w.World? && RunClose(w, l, c).World?
    ensures LateQuiet(w, RunClose(w, l, c))
  {
    var e := Closed(w.conns[c], w.loops[l].table, c);
    AfterIsQuiet(w, l, c, e);
    var w' := After(w, l, c, e);
    hide Queued, RunRemove, LateQuiet, After;
    if l == 0 {
      RemoveIsQuiet(w', c);
    } else {
      QuietSize(w, w');
      PostIsQuiet(w', 0, RemoveInLoop(c));
    }
    Chained(w, w', RunClose(w, l, c));
  }

  lemma QuietSize(w: World, w': World)
    requires LateQuiet(w, w')
    ensures w'.World? && |w'.loops| == |w.loops|
  {
  }

  lemma TaskIsQuiet(w: World, l: nat, t: Task, n: nat)
    requires w.World? && l < |w.loops| && (t.SendInLoop? ==> n <= |t.msg|) && RunTask(w, l, t, n).World?
    ensures LateQuiet(w, RunTask(w, l, t, n))
  {
    hide RunRemove, LateQuiet, Sent, Established, Destroyed;
    match t
    case Establish(c) => AfterIsQuiet(w, l, c, Established(w.conns[c], w.loops[l].table, c));
    case RemoveInLoop(c) => RemovalIsQuiet(w, l, c);
    case Destroy(c) => AfterIsQuiet(w, l, c, Destroyed(w.conns[c], w.loops[l].table, c));
    case SendInLoop(c, msg) => AfterIsQuiet(w, l, c, Sent(w.conns[c], w.loops[l].table, c, msg, n, w.notify));
    case ShutdownInLoop(c) => ConnIsQuiet(w, c, HalfClosedInLoop(w.conns[c]));
    case UserTask => SameIsQuiet(w, w);
  }

  lemma RemovalIsQuiet(w: World, l: nat, c: nat)
    requires w.World? && RunRemove(w, l, c).World?
    ensures LateQuiet(w, RunRemove(w, l, c))
  {
    assert l == 0;
    RemoveIsQuiet(w, c);
  }

  lemma ConnIsQuiet(w: World, c: nat, conn: Conn)
    requires w.World? && c < |w.conns|
    ensures LateQuiet(w, WithConn(w, c, conn))
  {
  }

  /** A world with the same queues. */
  lemma SameIsQuiet(w: World, w': World)
    requires w.World? && w'.World? && w'.pending == w.pending && |w'.loops| == |w.loops|
    requires forall l :: 0 <= l < |w.loops| ==>
      w'.loops[l].batch == w.loops[l].batch && w'.loops[l].queue == w.loops[l].queue
    ensures LateQuiet(w, w')
  {
  }

  lemma WriteIsQuiet(w: World, l: nat, c: nat, n: nat)
    requires w.World? && l < |w.loops| && (c < |w.conns| ==> n <= |w.conns[c].outbuf|) && RunWrite(w, l, c, n).World?
    ensures LateQuiet(w, RunWrite(w, l, c, n))
  {
    hide Drained, LateQuiet;
    AfterIsQuiet(w, l, c, Drained(w.conns[c], w.loops[l].table, n, w.notify));
  }

  lemma AcceptIsQuiet(w: World, fd: nat, io: nat)
    requires w.World? && io < |w.loops| && RunAccept(w, fd, io).World?
    ensures LateQuiet(w, RunAccept(w, fd, io))
  {
    var c, w' := |w.conns|, Appended(w, fd, io);
    SameIsQuiet(w, w');
    hide LateQuiet, Established;
    if io == 0 {
      AfterIsQuiet(w', 0, c, Established(w'.conns[c], w'.loops[0].table, c));
    } else {
      PostIsQuiet(w', io, Establish(c));
    }
    Chained(w, w', RunAccept(w, fd, io));
  }

  // ---------------------------------------------------------------- the steps

  lemma BranchIsQuiet(w: World, step: Step)
    requires Enabled(w, step) && Apply(w, step).World?
    requires step.CloseBranch? || step.ReadBranch? || step.WriteBranch?
    ensures LateQuiet(w, Apply(w, step))
  {
    var l := step.l;
    var head := w.loops[l].pc.rest[0];
    var w1, w2, w3 := AtStage(w, l, AtRead), AtStage(w, l, AtWrite), NextChannel(w, l);
    SameIsQuiet(w, w1);
    SameIsQuiet(w, w2);
    SameIsQuiet(w, w3);
    hide LateQuiet, RunClose, RunWrite;
    match step
    case CloseBranch(_) =>
      if ClosesFirst(head.revents) {
        CloseIsQuiet(w1, l, head.conn);
        Chained(w, w1, Apply(w, step));
      }
    case ReadBranch(_, eof) =>
      if Reads(head.revents) && eof {
        CloseIsQuiet(w2, l, head.conn);
        Chained(w, w2, Apply(w, step));
      }
    case WriteBranch(_, n) =>
      if POLLOUT in head.revents {
        WriteIsQuiet(w3, l, head.conn, n);
        Chained(w, w3, Apply(w, step));
      }
  }

  lemma SwapIsQuiet(w: World, l: nat)
    requires Enabled(w, Swap(l)) && w.loops[l].batch == []
    ensures LateQuiet(w, Apply(w, Swap(l)))
  {
    assert [] + w.loops[l].queue == w.loops[l].queue + [];
  }

  /** The steps that move no functor of another thread. */
  predicate MovesNoLate(step: Step) {
    !step.RunFirst? && !step.ForeignSend? && !step.ForeignShutdown? && !step.ForeignPost?
  }

  lemma StepIsQuiet(w: World, step: Step)
    requires Inv(w, NoDuty) && Enabled(w, step) && Apply(w, step).World? && MovesNoLate(step)
    ensures LateQuiet(w, Apply(w, step))
  {
    if step.Swap? {
      PcFacts(w, step.l, NoDuty);
    }
    hide Inv, LateQuiet, AnswerOk, Unowned, RunAccept, Queued;
    if step.CloseBranch? || step.ReadBranch? || step.WriteBranch? {
      BranchIsQuiet(w, step);
    } else if step.Accept? {
      AcceptIsQuiet(w, step.fd, step.io);
    } else if step.Swap? {
      SwapIsQuiet(w, step.l);
    } else if step.PostUser? {
      PostIsQuiet(w, step.l, UserTask);
    } else if step.UserSend? {
      UserSendIsQuiet(w, step);
    } else {
      SameIsQuiet(w, Apply(w, step));
    }
  }

  lemma UserSendIsQuiet(w: World, step: Step)
    requires Enabled(w, step) && step.UserSend? && Apply(w, step).World?
    ensures LateQuiet(w, Apply(w, step))
  {
    hide LateQuiet, RunSend;
    if w.conns[step.c].state == kConnected {
      TaskIsQuiet(w, step.l, SendInLoop(step.c, step.msg), step.n);
    } else {
      SameIsQuiet(w, w);
    }
  }

  /** A thread passes the test of `send` or `shutdown` and decides to post `t`. */
  predicate Decides(w: World, step: Step, t: Task)
    requires Enabled(w, step)
  {
    match step
    case ForeignSend(c, msg) => t == SendInLoop(c, msg) && w.conns[c].state == kConnected
    case ForeignShutdown(c) => t == ShutdownInLoop(c) && w.conns[c].state == kConnected
    case _ => false
  }

  predicate Executes(w: World, step: Step, t: Task)
    requires Enabled(w, step)
  {
    step.RunFirst? && w.loops[step.l].batch[0] == t
  }

  lemma RunFirstFlight(w: World, l: nat, n: nat, t: Task)
    requires Enabled(w, RunFirst(l, n)) && Apply(w, RunFirst(l, n)).World? && IsLate(t)
    ensures InFlight(Apply(w, RunFirst(l, n)), t) + (if w.loops[l].batch[0] == t then 1 else 0) == InFlight(w, t)
  {
    var w' := Taken(w, l);
    TakenOne(w.loops[l], w'.loops[l]);
    TotalOfOne(w.loops, l, w'.loops[l], t);
    TaskIsQuiet(w', l, w.loops[l].batch[0], n);
    hide Queued, RunTask, LateQuiet, Total;
    QuietFlight(w', Apply(w, RunFirst(l, n)), t);
  }

  lemma ForeignPostFlight(w: World, u: Task, t: Task)
    requires Enabled(w, ForeignPost(u)) && Apply(w, ForeignPost(u)).World?
    ensures InFlight(Apply(w, ForeignPost(u)), t) == InFlight(w, t)
  {
    var l := w.conns[u.c].loop;
    var p := w.loops[l].(queue := w.loops[l].queue + [u]);
    PostedOne(w.loops[l], p, u);
    TotalOfOne(w.loops, l, p, t);
    hide Queued, Total;
  }

  lemma StepFlight(w: World, step: Step, t: Task)
    requires Inv(w, NoDuty) && Enabled(w, step) && !Fatal(w, step) && IsLate(t)
    ensures Apply(w, step).World?
    ensures InFlight(Apply(w, step), t) + (if Executes(w, step, t) then 1 else 0) ==
            InFlight(w, t) + (if Decides(w, step, t) then 1 else 0)
  {
    StepKeeps(w, step);
    InvIsWorld(Apply(w, step), NoDuty);
    if MovesNoLate(step) {
      StepIsQuiet(w, step);
      hide Inv, Apply, LateQuiet, InFlight;
      QuietFlight(w, Apply(w, step), t);
    } else if step.RunFirst? {
      hide Inv, InFlight;
      RunFirstFlight(w, step.l, step.n, t);
    } else if step.ForeignPost? {
      hide Inv, InFlight;
      ForeignPostFlight(w, step.t, t);
    } else {
      hide Inv, InFlight;
      DecisionFlight(w, step, t);
    }
  }

  lemma DecisionFlight(w: World, step: Step, t: Task)
    requires Enabled(w, step) && (step.ForeignSend? || step.ForeignShutdown?)
    ensures Apply(w, step).World?
    ensures InFlight(Apply(w, step), t) == InFlight(w, t) + (if Decides(w, step, t) then 1 else 0)
  {
    hide Total;
  }

  function Decided(w: World, steps: seq<Step>, t: Task): nat
    requires Legal(w, steps)
    decreases |steps|
  {
    if steps == [] then 0
    else (if Decides(w, steps[0], t) then 1 else 0) + Decided(Apply(w, steps[0]), steps[1..], t)
  }

  function Executed(w: World, steps: seq<Step>, t: Task): nat
    requires Legal(w, steps)
    decreases |steps|
  {
    if steps == [] then 0
    else (if Executes(w, steps[0], t) then 1 else 0) + Executed(Apply(w, steps[0]), steps[1..], t)
  }

  lemma {:induction false} FlightFrom(w: World, steps: seq<Step>, t: Task)
    requires Inv(w, NoDuty) && w.World? && Legal(w, steps) && Exec(w, steps).World? && IsLate(t)
    ensures Executed(w, steps, t) + InFlight(Exec(w, steps), t) == InFlight(w, t) + Decided(w, steps, t)
    decreases |steps|
  {
    if steps != [] {
      StepKeeps(w, steps[0]);
      hide Inv, Apply, Fatal, Executes, Decides, InFlight;
      if !Fatal(w, steps[0]) {
        StepFlight(w, steps[0], t);
        FlightFrom(Apply(w, steps[0]), steps[1..], t);
      }
    }
  }

  /** In every run: a functor that another thread decided to post has run once for every time it
      was decided on, save for those that are still on their way. */
  lemma LateFunctorsRunOnce(w: World, steps: seq<Step>, t: Task)
    requires Init(w) && Legal(w, steps) && Exec(w, steps).World? && IsLate(t)
    ensures Executed(w, steps, t) + InFlight(Exec(w, steps), t) == Decided(w, steps, t)
  {
    InitKeeps(w);
    NothingInFlight(w.loops, t);
    hide Inv;
    FlightFrom(w, steps, t);
  }

  lemma {:induction false} NothingInFlight(loops: seq<Loop>, t: Task)
    requires forall l :: 0 <= l < |loops| ==> loops[l].batch == [] && loops[l].queue == []
    ensures Total(loops, t) == 0
    decreases |loops|
  {
    if loops != [] {
      NothingInFlight(loops[1..], t);
    }
  }

  // ---------------------------------------------------------------- what single steps bring about

  /** `sendInLoop` and `handleWrite` queue a write-complete functor exactly when they record one. */
  lemma CompletionIsPosted(w: World, l: nat, c: nat, msg: string, n: nat)
    requires n <= |msg| && RunSend(w, l, c, msg, n).World?
    ensures var w' := RunSend(w, l, c, msg, n);
            && c < |w.conns| && |w'.conns| == |w.conns| && l < |w.loops| && |w'.loops| == |w.loops|
            && w'.loops[l].queue ==
               w.loops[l].queue + (if w'.conns[c].completions != w.conns[c].completions then [UserTask] else [])
  {
    SendCompletesIff(w.conns[c], w.loops[l].table, c, msg, n, w.notify);
    hide Sent;
  }

  lemma DrainCompletionIsPosted(w: World, l: nat, c: nat, n: nat)
    requires w.World? && (c < |w.conns| ==> n <= |w.conns[c].outbuf|) && RunWrite(w, l, c, n).World?
    ensures var w' := RunWrite(w, l, c, n);
            && c < |w.conns| && |w'.conns| == |w.conns| && l < |w.loops| && |w'.loops| == |w.loops|
            && w'.loops[l].queue ==
               w.loops[l].queue + (if w'.conns[c].completions != w.conns[c].completions then [UserTask] else [])
  {
    DrainCompletesIff(w.conns[c], w.loops[l].table, n, w.notify);
    hide Drained;
  }

  /** Every descriptor poll(2) has reported is dispatched: the live connection on it, with the
      flags reported, and nothing else. */
  lemma ReportedAreDispatched(w: World, l: nat, ready: seq<Ready>)
    requires Inv(w, NoDuty) && Enabled(w, PollReturns(l, ready))
    ensures var pc := Apply(w, PollReturns(l, ready)).loops[l].pc;
            && pc.Dispatching? && pc.stage == AtClose && |pc.rest| == |ready|
            && forall k :: 0 <= k < |ready| ==>
                 && pc.rest[k].revents == ready[k].revents && pc.rest[k].conn < |w.conns|
                 && w.conns[pc.rest[k].conn].fd == ready[k].fd && w.conns[pc.rest[k].conn].loop == l
                 && PhaseOf(w.conns[pc.rest[k].conn]) == Live
  {
    forall k | 0 <= k < |ready|
      ensures var o := w.loops[l].table[ready[k].fd].owner;
              o < |w.conns| && w.conns[o].fd == ready[k].fd && w.conns[o].loop == l && PhaseOf(w.conns[o]) == Live
    {
      var o := w.loops[l].table[ready[k].fd].owner;
      OwnerFacts(w, l, ready[k].fd, NoDuty);
      ConnFacts(w, o, NoDuty);
      hide Inv, StreamInv;
    }
    hide Inv;
  }

  /** A new connection belongs to the loop that was picked for it, and is entered under its name. On
      the base loop it is up at once, on another its establishing functor comes last. */
  lemma AcceptedOnItsLoop(w: World, fd: nat, io: nat)
    requires Inv(w, NoDuty) && Enabled(w, Accept(fd, io))
    ensures var w', c := Apply(w, Accept(fd, io)), |w.conns|;
            && w'.World? && |w'.conns| == c + 1 && w'.conns[..c] == w.conns && |w'.loops| == |w.loops|
            && w'.conns[c].loop == io && w'.conns[c].fd == fd && w'.registry == Entered(w.registry, w.server, c)
            && if io == 0 then PhaseOf(w'.conns[c]) == Live && fd in w'.loops[0].table
               else PhaseOf(w'.conns[c]) == Establishing && w'.loops[io].queue == w.loops[io].queue + [Establish(c)]
  {
    StepKeeps(w, Accept(fd, io));
    InvIsWorld(Apply(w, Accept(fd, io)), NoDuty);
    hide Inv, Entered;
  }

  /** Freeing a connection closes it, and afterwards no open connection has its descriptor: the
      kernel may give it out again. */
  lemma FreeClosesDescriptor(w: World, c: nat)
    requires Inv(w, NoDuty) && Enabled(w, Free(c))
    ensures var w' := Apply(w, Free(c));
            && w'.World? && |w'.conns| == |w.conns| && w'.conns[c].freed
            && forall d :: 0 <= d < |w'.conns| && !w'.conns[d].freed ==> w'.conns[d].fd != w.conns[c].fd
  {
    FreeKeeps(w, c);
    InvIsWorld(Apply(w, Free(c)), NoDuty);
    FdFacts(w);
    hide Inv, Unowned, IsHandling;
  }

  lemma FdFacts(w: World)
    requires Inv(w, NoDuty) && w.World?
    ensures FdInv(w.conns)
  {
  }
}
