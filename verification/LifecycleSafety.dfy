/** What holds of every run of all event loops together, and exactly which runs fail an
    assertion. */
module LifecycleSafety {
  import opened PollTable
  import opened Connection
  import opened Stream
  import opened Naming
  import opened Lifecycle
  import opened LifecycleInv

  // ---------------------------------------------------------------- every run

  lemma InitKeeps(w: World)
    requires Init(w)
    ensures Inv(w, NoDuty)
  {
    forall l, t | 0 <= l < |w.loops| && IsDuty(t)
      ensures Queued(w.loops[l], t) + 0 == Wanted(w.conns, l, t)
    {
    }
  }

  /** Every world that a run reaches without a failing assertion meets the invariant. */
  lemma {:induction false} ExecKeeps(w: World, steps: seq<Step>)
    requires Inv(w, NoDuty) && Legal(w, steps)
    ensures Exec(w, steps).World? ==> Inv(Exec(w, steps), NoDuty)
    decreases |steps|
  {
    hide Inv, Apply, Fatal;
    if steps != [] {
      StepKeeps(w, steps[0]);
      if !Fatal(w, steps[0]) {
        ExecKeeps(Apply(w, steps[0]), steps[1..]);
      }
    }
  }

  // ---------------------------------------------------------------- which runs crash

  predicate AfterClose(p: Phase) {
    p == AwaitingErase || p == AwaitingDestroy || p == Gone
  }

  /** A `sendInLoop` functor of another thread runs when its connection has been closed, and
      leaves bytes to buffer. */
  predicate StrayTask(conns: seq<Conn>, t: Task, n: nat) {
    t.SendInLoop? && t.c < |conns| && AfterClose(PhaseOf(conns[t.c])) && LeavesBytes(conns[t.c], t.msg, n)
  }

  predicate Stray(w: World, step: Step)
    requires Enabled(w, step)
  {
    step.RunFirst? && StrayTask(w.conns, w.loops[step.l].batch[0], step.n)
  }

  /** The read callback finds the end of the stream when poll(2) has reported POLLHUP without
      POLLIN, for which the close callback has run before. */
  predicate DoubleClose(w: World, step: Step)
    requires Enabled(w, step)
  {
    && step.ReadBranch? && step.eof
    && ClosesFirst(w.loops[step.l].pc.rest[0].revents) && Reads(w.loops[step.l].pc.rest[0].revents)
  }

  predicate Harmful(w: World, step: Step)
    requires Enabled(w, step)
  {
    Stray(w, step) || DoubleClose(w, step)
  }

  predicate AnyHarm(w: World, steps: seq<Step>)
    requires Legal(w, steps)
    decreases |steps|
  {
    steps != [] && (Harmful(w, steps[0]) || AnyHarm(Apply(w, steps[0]), steps[1..]))
  }

  /** Every connection that was closed has been destroyed, or the run has crashed. */
  predicate Settled(w: World) {
    w.World? ==> forall c :: 0 <= c < |w.conns| ==>
      PhaseOf(w.conns[c]) != AwaitingErase && PhaseOf(w.conns[c]) != AwaitingDestroy
  }

  /** Closed, not destroyed yet, and asking for POLLOUT again. */
  predicate Dirty(c: Conn) {
    (PhaseOf(c) == AwaitingErase || PhaseOf(c) == AwaitingDestroy) && IsWriting(c)
  }

  predicate SomeDirty(w: World) {
    w.World? && exists c :: 0 <= c < |w.conns| && Dirty(w.conns[c])
  }

  /** A `Destroy` in a batch is one its connection waits for. */
  lemma DestroyIsDue(w: World, l: nat)
    requires Inv(w, NoDuty) && w.World? && l < |w.loops| && w.loops[l].pc.Executing?
    requires w.loops[l].batch != [] && w.loops[l].batch[0].Destroy?
    ensures var c := w.loops[l].batch[0].c; c < |w.conns| && PhaseOf(w.conns[c]) == AwaitingDestroy
  {
    TakeKeeps(w, l);
    var t := w.loops[l].batch[0];
    hide Inv;
    RunningIsDue(Taken(w, l), l, t);
  }

  /** A fatal step is harmful itself, or it destroys a connection that an earlier one has
      harmed. */
  lemma FatalIff(w: World, step: Step)
    requires Inv(w, NoDuty) && Enabled(w, step)
    ensures Fatal(w, step) ==> Harmful(w, step) || SomeDirty(w)
    ensures Harmful(w, step) && !Fatal(w, step) ==> Stray(w, step)
  {
    if step.RunFirst? && w.loops[step.l].batch[0].Destroy? {
      DestroyIsDue(w, step.l);
    }
    hide Inv;
  }

  // ---------------------------------------------------------------- what a step does to one connection

  /** The step runs a functor that another thread has posted. */
  predicate RunsLate(w: World, step: Step)
    requires Enabled(w, step)
  {
    step.RunFirst? && IsLate(w.loops[step.l].batch[0])
  }

  /** The order in which the states of a connection follow each other. */
  function Rank(s: State): nat {
    match s
    case kConnecting => 0
    case kConnected => 1
    case kDisconnecting => 2
    case kDisconnected => 3
  }

  /** No call follows shutdownWrite that did not before, no interest is enabled again, the state
      does not go back, and exactly `msg` is accepted. */
  ghost predicate Tame(was: Conn, conn: Conn, msg: string) {
    && (FinIsLast(conn.calls) <==> FinIsLast(was.calls)) && (Dirty(conn) <==> Dirty(was))
    && Rank(was.state) <= Rank(conn.state) && conn.accepted == was.accepted + msg
  }

  /** Every connection is tame, and only `c` accepts `msg`. */
  ghost predicate AllTame(w: World, w': World, c: nat, msg: string) {
    w.World? && w'.World? && |w'.conns| >= |w.conns| &&
    forall d :: 0 <= d < |w.conns| ==> Tame(w.conns[d], w'.conns[d], if d == c then msg else "")
  }

  lemma TameOne(w: World, w': World, c: nat, conn: Conn, msg: string)
    requires w.World? && w'.World? && c < |w.conns| && w'.conns == w.conns[c := conn] && Tame(w.conns[c], conn, msg)
    ensures AllTame(w, w', c, msg)
  {
    hide FinIsLast, Dirty;
  }

  /** Where nothing is accepted it does not matter by whom. */
  lemma TameQuietly(w: World, w': World, c: nat, conn: Conn)
    requires w.World? && w'.World? && c < |w.conns| && w'.conns == w.conns[c := conn] && Tame(w.conns[c], conn, "")
    ensures AllTame(w, w', 0, "")
  {
    hide FinIsLast, Dirty;
  }

  lemma CloseIsTame(w: World, l: nat, c: nat)
    requires w.World? && RunClose(w, l, c).World? && PhaseOf(w.conns[c]) == Live && InOrder(w.conns[c].runs)
    ensures AllTame(w, RunClose(w, l, c), 0, "")
  {
    hide FinIsLast;
    var w' := RunClose(w, l, c);
    assert w'.conns == w.conns[c := w'.conns[c]];
    TameQuietly(w, w', c, w'.conns[c]);
  }

  lemma WriteIsTame(w: World, l: nat, c: nat, n: nat)
    requires w.World? && (c < |w.conns| ==> n <= |w.conns[c].outbuf|) && RunWrite(w, l, c, n).World?
    requires StreamInv(w.conns[c]) && (CloseOk(w.conns[c]) || !IsWriting(w.conns[c]))
    requires PhaseOf(w.conns[c]) == Live || !IsWriting(w.conns[c])
    ensures AllTame(w, RunWrite(w, l, c, n), 0, "")
  {
    var conn, t := w.conns[c], w.loops[l].table;
    DrainFinIff(conn, t, n, w.notify);
    DrainedShape(conn, t, n, w.notify);
    var e := Drained(conn, t, n, w.notify);
    assert Dirty(e.conn) <==> Dirty(conn);
    hide FinIsLast, StreamInv, Drained;
    TameQuietly(w, RunWrite(w, l, c, n), c, e.conn);
  }

  lemma SendIsTame(w: World, l: nat, c: nat, msg: string, n: nat)
    requires w.World? && n <= |msg| && RunSend(w, l, c, msg, n).World?
    requires StreamInv(w.conns[c]) && w.conns[c].state == kConnected && PhaseOf(w.conns[c]) == Live
    ensures AllTame(w, RunSend(w, l, c, msg, n), c, msg)
  {
    var conn, t := w.conns[c], w.loops[l].table;
    SendFinIff(conn, t, c, msg, n, w.notify);
    SentRest(conn, t, c, msg, n, w.notify);
    SentParts(conn, t, c, msg, n, w.notify);
    var e := Sent(conn, t, c, msg, n, w.notify);
    hide FinIsLast, Sent;
    TameOne(w, RunSend(w, l, c, msg, n), c, e.conn, msg);
  }

  lemma EstablishIsTame(w: World, l: nat, c: nat)
    requires w.World? && RunEstablish(w, l, c).World? && PhaseOf(w.conns[c]) == Establishing
    requires w.conns[c].runs.closed == 0 && w.conns[c].state == kConnecting
    ensures AllTame(w, RunEstablish(w, l, c), 0, "")
  {
    hide FinIsLast;
    TameQuietly(w, RunEstablish(w, l, c), c, Established(w.conns[c], w.loops[l].table, c).conn);
  }

  lemma RemoveIsTame(w: World, c: nat)
    requires w.World? && RunRemove(w, 0, c).World? && PhaseOf(w.conns[c]) == AwaitingErase
    requires w.conns[c].runs.destroyed == 0
    ensures AllTame(w, RunRemove(w, 0, c), 0, "")
  {
    hide FinIsLast, ConnName;
    TameQuietly(w, RunRemove(w, 0, c), c, ErasedOnce(w.conns[c]));
  }

  lemma DestroyIsTame(w: World, l: nat, c: nat)
    requires w.World? && RunDestroy(w, l, c).World? && PhaseOf(w.conns[c]) == AwaitingDestroy
    requires !IsWriting(w.conns[c]) && w.conns[c].state == kDisconnected
    ensures AllTame(w, RunDestroy(w, l, c), 0, "")
  {
    hide FinIsLast;
    TameQuietly(w, RunDestroy(w, l, c), c, Destroyed(w.conns[c], w.loops[l].table, c).conn);
  }

  /** A branch, for a head that may be closed if the branch closes it. */
  lemma HeadIsTame(w: World, step: Step, c: nat)
    requires Enabled(w, step) && Apply(w, step).World? && (step.CloseBranch? || step.ReadBranch? || step.WriteBranch?)
    requires c == w.loops[step.l].pc.rest[0].conn && c < |w.conns|
    requires StreamInv(w.conns[c]) && InOrder(w.conns[c].runs)
    requires PhaseOf(w.conns[c]) == Live ==> CloseOk(w.conns[c])
    requires PhaseOf(w.conns[c]) == Live || !IsWriting(w.conns[c])
    requires step.CloseBranch? || (step.ReadBranch? && !ClosesFirst(w.loops[step.l].pc.rest[0].revents)) ==>
      PhaseOf(w.conns[c]) == Live
    requires step.ReadBranch? && step.eof && Reads(w.loops[step.l].pc.rest[0].revents) ==>
      !ClosesFirst(w.loops[step.l].pc.rest[0].revents)
    ensures AllTame(w, Apply(w, step), 0, "")
  {
    hide StreamInv, RunClose, RunWrite, FinIsLast, Dirty;
    match step
    case CloseBranch(l) =>
      if ClosesFirst(w.loops[l].pc.rest[0].revents) {
        CloseIsTame(AtStage(w, l, AtRead), l, c);
      }
    case ReadBranch(l, eof) =>
      if Reads(w.loops[l].pc.rest[0].revents) && eof {
        CloseIsTame(AtStage(w, l, AtWrite), l, c);
      }
    case WriteBranch(l, n) =>
      if POLLOUT in w.loops[l].pc.rest[0].revents {
        WriteIsTame(NextChannel(w, l), l, c, n);
      }
  }

  lemma BranchIsTame(w: World, step: Step)
    requires Inv(w, NoDuty) && Enabled(w, step) && !Fatal(w, step)
    requires step.CloseBranch? || step.ReadBranch? || step.WriteBranch?
    ensures AllTame(w, Apply(w, step), 0, "")
  {
    HeadFacts(w, step.l);
    StepKeeps(w, step);
    InvIsWorld(Apply(w, step), NoDuty);
    var c := w.loops[step.l].pc.rest[0].conn;
    ConnFacts(w, c, NoDuty);
    assert StreamInv(w.conns[c]) && InOrder(w.conns[c].runs);
    assert PhaseOf(w.conns[c]) == Live ==> CloseOk(w.conns[c]);
    hide Inv, StreamInv, ConnInv, SlotInv, Apply, AllTame;
    HeadIsTame(w, step, c);
  }

  /** The functors that carry connection `c` on, in the phase they find it in. */
  lemma DutyTaskIsTame(w: World, l: nat, t: Task, n: nat)
    requires w.World? && IsDuty(t) && t.c < |w.conns| && RunTask(w, l, t, n).World?
    requires InOrder(w.conns[t.c].runs)
    requires t.Establish? ==> PhaseOf(w.conns[t.c]) == Establishing && w.conns[t.c].state == kConnecting
    requires t.RemoveInLoop? ==> l == 0 && PhaseOf(w.conns[t.c]) == AwaitingErase
    requires t.Destroy? ==>
      PhaseOf(w.conns[t.c]) == AwaitingDestroy && !IsWriting(w.conns[t.c]) && w.conns[t.c].state == kDisconnected
    ensures AllTame(w, RunTask(w, l, t, n), 0, "")
  {
    hide RunEstablish, RunRemove, RunDestroy, RunSend, RunShutdown, AllTame;
    match t
    case Establish(c) => EstablishIsTame(w, l, c);
    case RemoveInLoop(c) => RemoveIsTame(w, c);
    case Destroy(c) => DestroyIsTame(w, l, c);
  }

  lemma DutyIsTame(w: World, l: nat, n: nat)
    requires Inv(w, NoDuty) && Enabled(w, RunFirst(l, n)) && !Fatal(w, RunFirst(l, n))
    requires !IsLate(w.loops[l].batch[0])
    ensures AllTame(w, Apply(w, RunFirst(l, n)), 0, "")
  {
    var t := w.loops[l].batch[0];
    StepKeeps(w, RunFirst(l, n));
    InvIsWorld(Apply(w, RunFirst(l, n)), NoDuty);
    if IsDuty(t) {
      TakeKeeps(w, l);
      hide Inv;
      RunningIsDue(Taken(w, l), l, t);
      ConnFacts(w, t.c, NoDuty);
      hide StreamInv, SlotInv, RunTask, FinIsLast, Dirty;
      DutyTaskIsTame(Taken(w, l), l, t, n);
    } else {
      hide Inv, FinIsLast, Dirty;
    }
  }

  lemma AcceptIsTame(w: World, fd: nat, io: nat)
    requires Enabled(w, Accept(fd, io)) && Apply(w, Accept(fd, io)).World?
    ensures AllTame(w, Apply(w, Accept(fd, io)), 0, "")
  {
    hide FinIsLast, Dirty;
    if io == 0 {
      EstablishIsTame(Appended(w, fd, io), io, |w.conns|);
    }
  }

  predicate IsCall(step: Step) {
    step.UserSend? || step.UserShutdown? || step.ForeignSend? || step.ForeignShutdown? || step.Free?
  }

  /** The message that the step gives to `sendInLoop` of connection `c`. */
  function Msg(w: World, step: Step, c: nat): string
    requires Enabled(w, step)
  {
    match step
    case UserSend(_, d, msg, _) => if d == c && w.conns[d].state == kConnected then msg else ""
    case RunFirst(l, _) => TaskMsg(w.loops[l].batch[0], c)
    case _ => ""
  }

  function TaskMsg(t: Task, c: nat): string {
    if t.SendInLoop? && t.c == c then t.msg else ""
  }

  /** A step that is no late functor, connection by connection. */
  ghost predicate StepTame(w: World, step: Step, w': World)
    requires Enabled(w, step)
  {
    w'.World? && |w'.conns| >= |w.conns| &&
    forall c :: 0 <= c < |w.conns| ==> Tame(w.conns[c], w'.conns[c], Msg(w, step, c))
  }

  lemma UserIsTame(w: World, step: Step)
    requires Enabled(w, step) && (step.UserSend? || step.UserShutdown?) && Apply(w, step).World?
    requires StreamInv(w.conns[step.c]) && (w.conns[step.c].state == kConnected ==> PhaseOf(w.conns[step.c]) == Live)
    ensures StepTame(w, step, Apply(w, step))
  {
    hide StreamInv, RunSend, FinIsLast;
    match step
    case UserSend(l, c, msg, n) =>
      if w.conns[c].state == kConnected {
        SendIsTame(w, l, c, msg, n);
      }
    case UserShutdown(l, c) => HalfCloseIsTame(w, c);
  }

  lemma ForeignIsTame(w: World, step: Step)
    requires Enabled(w, step) && (step.ForeignSend? || step.ForeignShutdown? || step.Free?) && Apply(w, step).World?
    requires w.conns[step.c].state == kConnected ==> PhaseOf(w.conns[step.c]) == Live
    ensures StepTame(w, step, Apply(w, step))
  {
    hide FinIsLast, Unowned;
    var conn := w.conns[step.c];
    match step
    case ForeignSend(c, _) => if conn.state == kConnected { TameQuietly(w, Apply(w, step), c, SendTested(conn)); }
    case ForeignShutdown(c) => if conn.state == kConnected { TameQuietly(w, Apply(w, step), c, ShutdownTested(conn)); }
    case Free(c) => TameQuietly(w, Apply(w, step), c, conn.(freed := true));
  }

  lemma CallIsTame(w: World, step: Step)
    requires Inv(w, NoDuty) && Enabled(w, step) && IsCall(step) && Apply(w, step).World?
    ensures StepTame(w, step, Apply(w, step))
  {
    ConnFacts(w, step.c, NoDuty);
    var conn := w.conns[step.c];
    assert StreamInv(conn) && (conn.state == kConnected ==> PhaseOf(conn) == Live);
    hide Inv, ConnInv, StreamInv, SlotInv, Apply, StepTame;
    if step.UserSend? || step.UserShutdown? {
      UserIsTame(w, step);
    } else {
      ForeignIsTame(w, step);
    }
  }

  /** Steps that give no message to anybody. */
  lemma QuietStep(w: World, step: Step)
    requires Enabled(w, step) && AllTame(w, Apply(w, step), 0, "") && !step.UserSend? && !RunsLate(w, step)
    ensures StepTame(w, step, Apply(w, step))
  {
    hide Apply, Tame;
  }

  /** Every step but a late functor leaves things as they are. */
  lemma StepIsTame(w: World, step: Step)
    requires Inv(w, NoDuty) && Enabled(w, step) && !Fatal(w, step) && !RunsLate(w, step)
    ensures StepTame(w, step, Apply(w, step))
  {
    StepKeeps(w, step);
    InvIsWorld(Apply(w, step), NoDuty);
    hide Inv, Fatal, StepTame;
    if IsCall(step) {
      CallIsTame(w, step);
    } else {
      if step.CloseBranch? || step.ReadBranch? || step.WriteBranch? {
        BranchIsTame(w, step);
      } else if step.RunFirst? {
        DutyIsTame(w, step.l, step.n);
      } else if step.Accept? {
        AcceptIsTame(w, step.fd, step.io);
      } else {
        hide FinIsLast, Dirty, AnswerOk;
        assert Apply(w, step).conns == w.conns;
      }
      QuietStep(w, step);
    }
  }

  lemma HalfCloseIsTame(w: World, c: nat)
    requires w.World? && c < |w.conns| && StreamInv(w.conns[c])
    ensures AllTame(w, WithConn(w, c, HalfClosed(w.conns[c])), 0, "")
  {
    HalfCloseFinIff(w.conns[c]);
    hide FinIsLast, StreamInv;
    TameQuietly(w, WithConn(w, c, HalfClosed(w.conns[c])), c, HalfClosed(w.conns[c]));
  }

  // ---------------------------------------------------------------- what a late functor does

  predicate FollowsTask(conns: seq<Conn>, t: Task, c: nat) {
    c < |conns| && match t
                   case SendInLoop(d, _) => d == c && FollowsFin(conns[c], LateSend)
                   case ShutdownInLoop(d) => d == c && FollowsFin(conns[c], LateShutdown)
                   case _ => false
  }

  /** The step runs a functor of another thread that makes a call on connection `c` after
      shutdownWrite. */
  predicate Follows(w: World, step: Step, c: nat)
    requires Enabled(w, step)
  {
    step.RunFirst? && FollowsTask(w.conns, w.loops[step.l].batch[0], c)
  }

  /** What a functor of another thread may change, connection by connection. */
  ghost predicate LateEffect(conns: seq<Conn>, conns': seq<Conn>, t: Task, n: nat) {
    && |conns'| == |conns|
    && forall c :: 0 <= c < |conns| ==>
         && (FinIsLast(conns'[c].calls) <==> FinIsLast(conns[c].calls) && !FollowsTask(conns, t, c))
         && (Dirty(conns'[c]) <==> Dirty(conns[c]) || (StrayTask(conns, t, n) && t.c == c))
         && conns'[c].state == conns[c].state && conns'[c].accepted == conns[c].accepted + TaskMsg(t, c)
  }

  /** What a late `sendInLoop` does to its connection. */
  lemma LateSent(conn: Conn, t: Table<nat>, c: nat, msg: string, n: nat, notify: bool)
    requires n <= |msg| && SendOk(conn, t, msg, n) && (PhaseOf(conn) == Gone ==> !LeavesBytes(conn, msg, n))
    ensures var e := Sent(conn, t, c, msg, n, notify);
            && (FinIsLast(e.conn.calls) <==> FinIsLast(conn.calls) && !FollowsFin(conn, LateSend))
            && (Dirty(e.conn) <==> Dirty(conn) || (AfterClose(PhaseOf(conn)) && LeavesBytes(conn, msg, n)))
            && e.conn.state == conn.state && e.conn.accepted == conn.accepted + msg
  {
    SendFinIff(conn, t, c, msg, n, notify);
    SentRest(conn, t, c, msg, n, notify);
    SentParts(conn, t, c, msg, n, notify);
    hide FinIsLast, Sent;
  }

  lemma LateSendEffect(w: World, l: nat, c: nat, msg: string, n: nat)
    requires w.World? && n <= |msg| && RunSend(w, l, c, msg, n).World?
    requires PhaseOf(w.conns[c]) == Gone ==> !LeavesBytes(w.conns[c], msg, n)
    ensures LateEffect(w.conns, RunSend(w, l, c, msg, n).conns, SendInLoop(c, msg), n)
  {
    LateSent(w.conns[c], w.loops[l].table, c, msg, n, w.notify);
    var e := Sent(w.conns[c], w.loops[l].table, c, msg, n, w.notify);
    hide FinIsLast, Sent, Dirty, LeavesBytes, FollowsFin;
    assert RunSend(w, l, c, msg, n).conns == w.conns[c := e.conn];
  }

  lemma LateShutdownEffect(w: World, l: nat, c: nat, n: nat)
    requires w.World? && RunShutdown(w, l, c).World?
    ensures LateEffect(w.conns, RunShutdown(w, l, c).conns, ShutdownInLoop(c), n)
  {
    LateShutdownFinIff(w.conns[c]);
    hide FinIsLast;
  }

  lemma LateStep(w: World, l: nat, n: nat)
    requires Inv(w, NoDuty) && Enabled(w, RunFirst(l, n)) && !Fatal(w, RunFirst(l, n))
    requires IsLate(w.loops[l].batch[0])
    ensures Apply(w, RunFirst(l, n)).World?
    ensures LateEffect(w.conns, Apply(w, RunFirst(l, n)).conns, w.loops[l].batch[0], n)
  {
    StepKeeps(w, RunFirst(l, n));
    InvIsWorld(Apply(w, RunFirst(l, n)), NoDuty);
    hide Inv, LateEffect, RunSend, RunShutdown;
    match w.loops[l].batch[0]
    case SendInLoop(c, msg) =>
      assert RunSend(Taken(w, l), l, c, msg, n).World?;
      SendNeedsConn(Taken(w, l), l, c, msg, n);
      LateSendEffect(Taken(w, l), l, c, msg, n);
    case ShutdownInLoop(c) => LateShutdownEffect(Taken(w, l), l, c, n);
  }

  lemma SendNeedsConn(w: World, l: nat, c: nat, msg: string, n: nat)
    requires w.World? && n <= |msg| && RunSend(w, l, c, msg, n).World?
    ensures c < |w.conns|
  {
  }

  /** A connection gets dirty only by a stray functor, and is never cleaned. */
  lemma DirtyStep(w: World, step: Step)
    requires Inv(w, NoDuty) && Enabled(w, step) && !Fatal(w, step)
    ensures Apply(w, step).World? && (SomeDirty(Apply(w, step)) <==> SomeDirty(w) || Stray(w, step))
  {
    if RunsLate(w, step) {
      LateStep(w, step.l, step.n);
      var t := w.loops[step.l].batch[0];
      if Stray(w, step) && PhaseOf(w.conns[t.c]) != Gone {
        assert Dirty(Apply(w, step).conns[t.c]);
      }
      hide Inv, Apply, FollowsTask, FinIsLast, Dirty;
    } else {
      StepIsTame(w, step);
      NewIsClean(w, step);
      hide Inv, Apply, FinIsLast, Dirty;
    }
  }

  lemma NewIsClean(w: World, step: Step)
    requires Inv(w, NoDuty) && Enabled(w, step) && !Fatal(w, step)
    ensures Apply(w, step).World?
    ensures forall c :: |w.conns| <= c < |Apply(w, step).conns| ==> !Dirty(Apply(w, step).conns[c])
  {
    StepKeeps(w, step);
    InvIsWorld(Apply(w, step), NoDuty);
    hide Inv, FatalTask, AnswerOk, Unowned, MayTake, LeavesBytes, Erased, ConnName;
    SameNumber(w, step);
  }

  lemma SameNumber(w: World, step: Step)
    requires Enabled(w, step) && Apply(w, step).World?
    ensures if step.Accept? then |Apply(w, step).conns| == |w.conns| + 1 else |Apply(w, step).conns| == |w.conns|
    ensures step.Accept? ==> !Dirty(Apply(w, step).conns[|w.conns|]) && Apply(w, step).conns[|w.conns|].calls == []
    ensures step.Accept? ==> Apply(w, step).conns[|w.conns|].accepted == ""
  {
    hide AnswerOk, Unowned, RunClose, RunTask, RunSend, RunWrite, Erased, ConnName, Entered;
    match step
    case CloseBranch(l) => CloseNumber(AtStage(w, l, AtRead), l, w.loops[l].pc.rest[0].conn);
    case ReadBranch(l, eof) => CloseNumber(AtStage(w, l, AtWrite), l, w.loops[l].pc.rest[0].conn);
    case WriteBranch(l, n) => WriteNumber(NextChannel(w, l), l, w.loops[l].pc.rest[0].conn, n);
    case RunFirst(l, n) => TaskNumber(Taken(w, l), l, w.loops[l].batch[0], n);
    case UserSend(l, c, msg, n) => TaskNumber(w, l, SendInLoop(c, msg), n);
    case _ =>
  }

  lemma CloseNumber(w: World, l: nat, c: nat)
    requires w.World?
    ensures RunClose(w, l, c).World? ==> |RunClose(w, l, c).conns| == |w.conns|
  {
  }

  lemma WriteNumber(w: World, l: nat, c: nat, n: nat)
    requires w.World? && (c < |w.conns| ==> n <= |w.conns[c].outbuf|)
    ensures RunWrite(w, l, c, n).World? ==> |RunWrite(w, l, c, n).conns| == |w.conns|
  {
    hide Drained;
  }

  lemma TaskNumber(w: World, l: nat, t: Task, n: nat)
    requires w.World? && (t.SendInLoop? ==> n <= |t.msg|)
    ensures RunTask(w, l, t, n).World? ==> |RunTask(w, l, t, n).conns| == |w.conns|
    ensures t.SendInLoop? && RunSend(w, l, t.c, t.msg, n).World? ==> |RunSend(w, l, t.c, t.msg, n).conns| == |w.conns|
  {
    hide Sent, Established, Destroyed, DestroyOk, SendOk, ConnName;
  }

  // ---------------------------------------------------------------- the theorems

  lemma {:induction false} CrashesOnlyByHarm(w: World, steps: seq<Step>)
    requires Inv(w, NoDuty) && Legal(w, steps)
    ensures Exec(w, steps).Crashed? ==> AnyHarm(w, steps) || SomeDirty(w)
    ensures Settled(Exec(w, steps)) && (AnyHarm(w, steps) || SomeDirty(w)) ==> Exec(w, steps).Crashed?
    decreases |steps|
  {
    if steps == [] {
      InvIsWorld(w, NoDuty);
      hide Inv;
    } else {
      StepKeeps(w, steps[0]);
      FatalIff(w, steps[0]);
      var w', rest := Apply(w, steps[0]), steps[1..];
      hide Inv, Apply, Fatal, SomeDirty, Stray, DoubleClose, Settled;
      if Fatal(w, steps[0]) {
        assert rest == [];
      } else {
        DirtyStep(w, steps[0]);
        CrashesOnlyByHarm(w', rest);
      }
    }
  }

  /** The exact condition: a run at whose end every closed connection has been destroyed has
      failed an assertion of TcpConnection, Channel, Poller or TcpServer if and only if, in one
      of its steps, a `sendInLoop` functor of another thread left bytes for a closed connection,
      or the read callback found the end of a stream that the close callback had closed. */
  lemma CrashesIff(w: World, steps: seq<Step>)
    requires Init(w) && Legal(w, steps) && Settled(Exec(w, steps))
    ensures Exec(w, steps).Crashed? <==> AnyHarm(w, steps)
  {
    InitKeeps(w);
    CrashesOnlyByHarm(w, steps);
  }

  /** Without such a step no assertion fails at any point of a run. */
  lemma NoRunCrashes(w: World, steps: seq<Step>)
    requires Init(w) && Legal(w, steps) && !AnyHarm(w, steps)
    ensures Exec(w, steps).World? && Inv(Exec(w, steps), NoDuty)
  {
    InitKeeps(w);
    CrashesOnlyByHarm(w, steps);
    ExecKeeps(w, steps);
  }

  // ---------------------------------------------------------------- messages and states

  /** What a step does to the bytes accepted and to the state of connection `c`. */
  lemma AcceptStep(w: World, step: Step, c: nat)
    requires Inv(w, NoDuty) && Enabled(w, step) && !Fatal(w, step)
    ensures var w' := Apply(w, step);
            && w'.World? && |w'.conns| >= |w.conns|
            && (c < |w.conns| ==>
                  && Rank(w.conns[c].state) <= Rank(w'.conns[c].state)
                  && w'.conns[c].accepted == w.conns[c].accepted + Msg(w, step, c))
            && (|w.conns| <= c < |w'.conns| ==> w'.conns[c].accepted == "")
  {
    hide Inv, Apply, Fatal, Dirty, FinIsLast, FollowsTask, StrayTask;
    StepKeeps(w, step);
    InvIsWorld(Apply(w, step), NoDuty);
    SameNumber(w, step);
    if RunsLate(w, step) {
      LateStep(w, step.l, step.n);
    } else {
      StepIsTame(w, step);
    }
  }

  /** The messages that a run gives to `sendInLoop` of connection `c`, in their order. */
  function Messages(w: World, steps: seq<Step>, c: nat): string
    requires Legal(w, steps)
    decreases |steps|
  {
    if steps == [] then ""
    else
      (if w.World? && c < |w.conns| then Msg(w, steps[0], c) else "") + Messages(Apply(w, steps[0]), steps[1..], c)
  }

  lemma {:induction false} AcceptedFrom(w: World, steps: seq<Step>, c: nat)
    requires Inv(w, NoDuty) && w.World? && Legal(w, steps) && Exec(w, steps).World?
    ensures |Exec(w, steps).conns| >= |w.conns|
    ensures c < |Exec(w, steps).conns| ==>
      Exec(w, steps).conns[c].accepted == (if c < |w.conns| then w.conns[c].accepted else "") + Messages(w, steps, c)
    ensures c < |w.conns| ==> Rank(w.conns[c].state) <= Rank(Exec(w, steps).conns[c].state)
    decreases |steps|
  {
    hide Inv, Apply, Fatal, Msg;
    if steps != [] {
      StepKeeps(w, steps[0]);
      if !Fatal(w, steps[0]) {
        AcceptStep(w, steps[0], c);
        AcceptedFrom(Apply(w, steps[0]), steps[1..], c);
        hide Legal;
        if c < |w.conns| {
          Concatenate(w.conns[c].accepted, Msg(w, steps[0], c), Messages(Apply(w, steps[0]), steps[1..], c));
        }
      }
    }
  }

  lemma ShutdownMoves(w: World, step: Step)
    requires Enabled(w, step) && (step.UserShutdown? || step.ForeignShutdown?) && w.conns[step.c].state == kConnected
    ensures Apply(w, step).World? && |Apply(w, step).conns| == |w.conns|
    ensures Apply(w, step).conns[step.c].state == kDisconnecting
  {
  }

  /** A `shutdown` of a connected connection is remembered, whatever happens afterwards, and
      wherever it was called: the connection is never connected again, and while it is up with
      an empty buffer its half-close has been made, if no other thread has called. */
  lemma ShutdownIsRemembered(w: World, step: Step, steps: seq<Step>)
    requires Inv(w, NoDuty) && Enabled(w, step) && (step.UserShutdown? || step.ForeignShutdown?)
    requires w.conns[step.c].state == kConnected
    requires Legal(Apply(w, step), steps) && Exec(Apply(w, step), steps).World?
    ensures var conns := Exec(Apply(w, step), steps).conns;
            && step.c < |conns|
            && var conn := conns[step.c];
               && (conn.state == kDisconnecting || conn.state == kDisconnected)
               && (CloseOk(conn) && conn.outbuf == "" && !conn.foreign ==> FinSent(conn))
  {
    assert !Fatal(w, step);
    hide Apply, Fatal, Inv, Exec, Legal;
    StepKeeps(w, step);
    ShutdownMoves(w, step);
    DisconnectingFrom(Apply(w, step), steps, step.c);
  }

  lemma DisconnectingFrom(w: World, steps: seq<Step>, c: nat)
    requires Inv(w, NoDuty) && w.World? && c < |w.conns| && w.conns[c].state == kDisconnecting
    requires Legal(w, steps) && Exec(w, steps).World?
    ensures var conns := Exec(w, steps).conns;
            && c < |conns|
            && var conn := conns[c];
               && (conn.state == kDisconnecting || conn.state == kDisconnected)
               && (CloseOk(conn) && conn.outbuf == "" && !conn.foreign ==> FinSent(conn))
  {
    hide Apply, Inv, Exec, Legal;
    AcceptedFrom(w, steps, c);
    ExecKeeps(w, steps);
    StreamFacts(Exec(w, steps), c);
  }

  lemma StreamFacts(w: World, c: nat)
    requires Inv(w, NoDuty) && w.World? && c < |w.conns|
    ensures var conn := w.conns[c];
            conn.state == kDisconnecting && conn.outbuf == "" && !conn.foreign ==> FinSent(conn)
  {
    ConnFacts(w, c, NoDuty);
    assert StreamInv(w.conns[c]);
    hide Inv, ConnInv, FinIsLast, Written;
  }

  predicate AnyFollows(w: World, steps: seq<Step>, c: nat)
    requires Legal(w, steps)
    decreases |steps|
  {
    steps != [] && (Follows(w, steps[0], c) || AnyFollows(Apply(w, steps[0]), steps[1..], c))
  }

  lemma FinStep(w: World, step: Step, c: nat)
    requires Inv(w, NoDuty) && Enabled(w, step) && !Fatal(w, step)
    ensures Apply(w, step).World? && |Apply(w, step).conns| >= |w.conns|
    ensures c < |Apply(w, step).conns| ==>
      (FinIsLast(Apply(w, step).conns[c].calls) <==>
       (c < |w.conns| ==> FinIsLast(w.conns[c].calls)) && !Follows(w, step, c))
  {
    StepKeeps(w, step);
    InvIsWorld(Apply(w, step), NoDuty);
    SameNumber(w, step);
    if RunsLate(w, step) {
      LateStep(w, step.l, step.n);
    } else {
      StepIsTame(w, step);
    }
    hide Inv, Apply, Fatal, Dirty;
  }

  lemma {:induction false} FinIsLastFrom(w: World, steps: seq<Step>, c: nat)
    requires Inv(w, NoDuty) && w.World? && Legal(w, steps) && Exec(w, steps).World? && c < |Exec(w, steps).conns|
    ensures FinIsLast(Exec(w, steps).conns[c].calls) <==>
            (c < |w.conns| ==> FinIsLast(w.conns[c].calls)) && !AnyFollows(w, steps, c)
    decreases |steps|
  {
    if steps != [] {
      StepKeeps(w, steps[0]);
      hide Inv, Apply, Fatal, FinIsLast, Follows;
      if !Fatal(w, steps[0]) {
        FinStep(w, steps[0], c);
        FinIsLastFrom(Apply(w, steps[0]), steps[1..], c);
        if c >= |Apply(w, steps[0]).conns| {
          NoFollower(w, steps[0], c);
        }
      }
    }
  }

  lemma NoFollower(w: World, step: Step, c: nat)
    requires Enabled(w, step) && c >= |w.conns|
    ensures !Follows(w, step, c)
  {
  }

  /** The exact condition of the half-close: in every run, shutdownWrite is called at most once
      on a connection and nothing is written after it if and only if no functor of another
      thread made a call on the socket after it. */
  lemma FinIsLastIff(w: World, steps: seq<Step>, c: nat)
    requires Init(w) && Legal(w, steps) && Exec(w, steps).World? && c < |Exec(w, steps).conns|
    ensures FinIsLast(Exec(w, steps).conns[c].calls) <==> !AnyFollows(w, steps, c)
  {
    InitKeeps(w);
    FinIsLastFrom(w, steps, c);
  }

  // ---------------------------------------------------------------- the phases

  /** Of all functors that carry connection `c` on, in all queues, only `duty` is there, once. */
  ghost predicate AwaitsOnly(w: World, c: nat, duty: Duty)
    requires w.World?
  {
    forall l, t :: 0 <= l < |w.loops| && IsDuty(t) && t.c == c ==>
      Queued(w.loops[l], t) == if duty == Owes(l, t) then 1 else 0
  }

  /** The slot of a closed connection is masked, and asks for what its channel asks for. */
  predicate Muted(conn: Conn, t: Table<nat>, c: nat) {
    && (conn.events == NONE_EVENT || (conn.events == WRITE_EVENT && conn.outbuf != ""))
    && conn.fd in t && t[conn.fd] == Watch(c, conn.events, true)
  }

  /** The phases as they can be seen: by the state, the map, the queues and the slot. */
  ghost predicate Seen(w: World, c: nat, p: Phase)
    requires w.World? && c < |w.conns| && w.conns[c].loop < |w.loops|
  {
    var conn := w.conns[c];
    var t := w.loops[conn.loop].table;
    var inMap := ConnName(w.server, c) in w.registry;
    match p
    case Establishing =>
      conn.state == kConnecting && inMap && conn.fd !in t && AwaitsOnly(w, c, Owes(conn.loop, Establish(c)))
    case Live =>
      CloseOk(conn) && inMap && conn.fd in t && t[conn.fd].owner == c && !t[conn.fd].masked && AwaitsOnly(w, c, NoDuty)
    case AwaitingErase =>
      conn.state == kDisconnected && inMap && Muted(conn, t, c) && AwaitsOnly(w, c, Owes(0, RemoveInLoop(c)))
    case AwaitingDestroy =>
      conn.state == kDisconnected && !inMap && Muted(conn, t, c) && AwaitsOnly(w, c, Owes(conn.loop, Destroy(c)))
    case Gone =>
      conn.state == kDisconnected && !inMap && (conn.fd in t ==> t[conn.fd].owner != c) && AwaitsOnly(w, c, NoDuty)
  }

  lemma DutyIsSeen(w: World, c: nat)
    requires Inv(w, NoDuty) && w.World? && c < |w.conns|
    ensures AwaitsOnly(w, c, DutyOf(w.conns[c], c))
  {
    var duty := DutyOf(w.conns[c], c);
    hide PcsInv, LateInv, RegistryInv, FdInv, OwnersInv, SlotsInv, ConnsInv, DutyOf;
    forall l, t | 0 <= l < |w.loops| && IsDuty(t) && t.c == c
      ensures Queued(w.loops[l], t) == if duty == Owes(l, t) then 1 else 0
    {
      assert Queued(w.loops[l], t) + 0 == Wanted(w.conns, l, t);
    }
  }

  lemma PhaseIsSeen(w: World, c: nat)
    requires Inv(w, NoDuty) && w.World? && c < |w.conns|
    ensures w.conns[c].loop < |w.loops| && Seen(w, c, PhaseOf(w.conns[c])) && InOrder(w.conns[c].runs)
  {
    ConnFacts(w, c, NoDuty);
    DutyIsSeen(w, c);
    assert InterestInv(w.conns[c]);
    hide Inv, StreamInv, AwaitsOnly;
  }

  /** The views of two phases differ in what everybody can look up. */
  lemma SeenOnce(w: World, c: nat, p: Phase, q: Phase)
    requires w.World? && c < |w.conns| && w.conns[c].loop < |w.loops| && Seen(w, c, p) && Seen(w, c, q)
    ensures p == q
  {
    hide AwaitsOnly;
  }

  /** In every run each connection is in exactly one phase, its callbacks have run at most once
      each, and in the order established, closed, erased, destroyed; and its object is freed
      only after all of them. */
  lemma ExactlyOnePhase(w: World, steps: seq<Step>, c: nat)
    requires Init(w) && Legal(w, steps) && Exec(w, steps).World? && c < |Exec(w, steps).conns|
    ensures var w' := Exec(w, steps);
            && w'.conns[c].loop < |w'.loops|
            && (forall p :: Seen(w', c, p) <==> p == PhaseOf(w'.conns[c]))
            && (w'.conns[c].freed ==> PhaseOf(w'.conns[c]) == Gone)
            && var runs := w'.conns[c].runs;
               1 >= runs.established >= runs.closed >= runs.erased >= runs.destroyed
  {
    InitKeeps(w);
    ExecKeeps(w, steps);
    var w' := Exec(w, steps);
    ConnFacts(w', c, NoDuty);
    PhaseIsSeen(w', c);
    hide Inv, Seen, StreamInv;
    forall p | Seen(w', c, p)
      ensures p == PhaseOf(w'.conns[c])
    {
      SeenOnce(w', c, p, PhaseOf(w'.conns[c]));
    }
  }

  /** In every run the bytes written and the bytes buffered of every connection are the messages
      given to its `sendInLoop`, in their order; while it is up, write interest is
      on exactly when bytes are buffered; a write-complete functor is queued with bytes still
      buffered only after an empty message. If no other thread has called `send` or `shutdown`
      on it, its half-close is graceful; in any case shutdownWrite, as long as nothing follows
      it, comes after all bytes. */
  lemma EveryStreamIsSound(w: World, steps: seq<Step>, c: nat)
    requires Init(w) && Legal(w, steps) && Exec(w, steps).World? && c < |Exec(w, steps).conns|
    ensures var conn := Exec(w, steps).conns[c];
            && Written(conn.calls) + conn.outbuf == conn.accepted == Messages(w, steps, c)
            && (CloseOk(conn) ==> (IsWriting(conn) <==> conn.outbuf != ""))
            && CompletionsOk(conn.completions)
            && (CloseOk(conn) && FinSent(conn) && FinIsLast(conn.calls) ==> Written(conn.calls) == conn.accepted)
            && (!conn.foreign ==>
                  && FinIsLast(conn.calls) && (FinSent(conn) ==> Written(conn.calls) == conn.accepted)
                  && (conn.state == kDisconnecting ==> (FinSent(conn) <==> conn.outbuf == "")))
  {
    InitKeeps(w);
    ExecKeeps(w, steps);
    AcceptedFrom(w, steps, c);
    ConnFacts(Exec(w, steps), c, NoDuty);
    var conn := Exec(w, steps).conns[c];
    assert StreamInv(conn);
    hide Inv, ConnInv, SlotInv, Exec, Legal, Init, Written, FinIsLast;
    if conn.outbuf == "" {
      assert Written(conn.calls) + "" == Written(conn.calls);
    }
  }

  /** A registered connection is owned by the map or by a waiting functor. */
  lemma RegisteredIsOwned(w: World, l: nat, fd: int)
    requires Inv(w, NoDuty) && w.World? && l < |w.loops| && fd in w.loops[l].table
    ensures var o := w.loops[l].table[fd].owner;
            && o < |w.conns| && w.conns[o].loop == l
            && (ConnName(w.server, o) in w.registry || Queued(w.loops[l], Destroy(o)) == 1)
  {
    OwnerFacts(w, l, fd, NoDuty);
    var o := w.loops[l].table[fd].owner;
    ConnFacts(w, o, NoDuty);
    DutyIsSeen(w, o);
    hide Inv, StreamInv, SlotInv;
  }
}
