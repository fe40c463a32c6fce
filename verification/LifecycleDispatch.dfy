/** One dispatch of the active channels: which callbacks it runs, when it closes twice, and that
    nothing is pulled away under it. */
module LifecycleDispatch {
  import opened PollTable
  import opened Connection
  import opened Stream
  import opened Naming
  import opened Lifecycle
  import opened LifecycleInv

  // ---------------------------------------------------------------- the branches are the callbacks

  function AtMost(n: nat, bound: nat): nat {
    if n < bound then n else bound
  }

  /** One callback of connection `c`: whether its read finds the end of the stream, and how many
      bytes its write takes. */
  function RunCallback(w: World, l: nat, c: nat, cb: Callback, eof: bool, n: nat): World {
    if w.Crashed? || c >= |w.conns| then w
    else
      match cb
      case ErrorCallback => w
      case CloseCallback => RunClose(w, l, c)
      case ReadCallback => if eof then RunClose(w, l, c) else w
      case WriteCallback => RunWrite(w, l, c, AtMost(n, |w.conns[c].outbuf|))
  }

  function RunCallbacks(w: World, l: nat, c: nat, cbs: seq<Callback>, eof: bool, n: nat): World
    decreases |cbs|
  {
    if cbs == [] then w else RunCallbacks(RunCallback(w, l, c, cbs[0], eof, n), l, c, cbs[1..], eof, n)
  }

  lemma {:induction false} RunBoth(w: World, l: nat, c: nat, a: seq<Callback>, b: seq<Callback>, eof: bool, n: nat)
    ensures RunCallbacks(w, l, c, a + b, eof, n) == RunCallbacks(RunCallbacks(w, l, c, a, eof, n), l, c, b, eof, n)
    decreases |a|
  {
    if a == [] {
      assert a + b == b;
    } else {
      assert (a + b)[0] == a[0] && (a + b)[1..] == a[1..] + b;
      RunBoth(RunCallback(w, l, c, a[0], eof, n), l, c, a[1..], b, eof, n);
    }
  }

  function RunIf(w: World, l: nat, c: nat, cb: Callback, runs: bool, eof: bool, n: nat): World {
    if runs then RunCallback(w, l, c, cb, eof, n) else w
  }

  lemma RunOne(w: World, l: nat, c: nat, cb: Callback, runs: bool, eof: bool, n: nat)
    ensures RunCallbacks(w, l, c, if runs then [cb] else [], eof, n) == RunIf(w, l, c, cb, runs, eof, n)
  {
    assert [cb][1..] == [];
  }

  /** The callbacks of a set of flags, one after the other. */
  lemma CallbacksInTurn(w: World, l: nat, c: nat, revents: Mask, eof: bool, n: nat)
    ensures RunCallbacks(w, l, c, Callbacks(revents), eof, n) ==
            var w1 := RunIf(w, l, c, CloseCallback, ClosesFirst(revents), eof, n);
            var w2 := RunIf(w1, l, c, ReadCallback, Reads(revents), eof, n);
            RunIf(w2, l, c, WriteCallback, POLLOUT in revents, eof, n)
  {
    var e: seq<Callback> := if POLLNVAL in revents || POLLERR in revents then [ErrorCallback] else [];
    var k: seq<Callback> := if ClosesFirst(revents) then [CloseCallback] else [];
    var r: seq<Callback> := if Reads(revents) then [ReadCallback] else [];
    var o: seq<Callback> := if POLLOUT in revents then [WriteCallback] else [];
    RunBoth(w, l, c, e + k + r, o, eof, n);
    RunBoth(w, l, c, e + k, r, eof, n);
    RunBoth(w, l, c, e, k, eof, n);
    RunOne(w, l, c, ErrorCallback, POLLNVAL in revents || POLLERR in revents, eof, n);
    RunOne(w, l, c, CloseCallback, ClosesFirst(revents), eof, n);
    var w1 := RunIf(w, l, c, CloseCallback, ClosesFirst(revents), eof, n);
    RunOne(w1, l, c, ReadCallback, Reads(revents), eof, n);
    var w2 := RunIf(w1, l, c, ReadCallback, Reads(revents), eof, n);
    RunOne(w2, l, c, WriteCallback, POLLOUT in revents, eof, n);
    hide RunCallbacks, RunClose, RunWrite;
  }

  /** A loop whose dispatch has moved on. */
  function AtPc(w: World, l: nat, pc: Pc): World
    requires w.World? && l < |w.loops|
  {
    WithLoop(w, l, w.loops[l].(pc := pc))
  }

  lemma CloseKeepsPc(w: World, l: nat, c: nat, pc: Pc)
    requires w.World? && l < |w.loops|
    ensures RunClose(w, l, c).Crashed? <==> RunClose(AtPc(w, l, pc), l, c).Crashed?
    ensures RunClose(w, l, c).World? ==>
      && |RunClose(w, l, c).loops| == |w.loops| && RunClose(w, l, c).loops[l].pc == w.loops[l].pc
      && |RunClose(w, l, c).conns| == |w.conns|
      && RunClose(AtPc(w, l, pc), l, c) == AtPc(RunClose(w, l, c), l, pc)
  {
    if RunClose(w, l, c).World? {
      var a, b := RunClose(AtPc(w, l, pc), l, c), AtPc(RunClose(w, l, c), l, pc);
      assert a.loops == b.loops;
    }
  }

  lemma CloseKeepsBuffer(w: World, l: nat, c: nat)
    requires w.World? && l < |w.loops| && c < |w.conns| && RunClose(w, l, c).World?
    ensures |RunClose(w, l, c).conns| == |w.conns| && RunClose(w, l, c).conns[c].outbuf == w.conns[c].outbuf
  {
  }

  lemma WriteKeepsPc(w: World, l: nat, c: nat, n: nat, pc: Pc)
    requires w.World? && l < |w.loops| && c < |w.conns| && n <= |w.conns[c].outbuf|
    ensures RunWrite(w, l, c, n).Crashed? <==> RunWrite(AtPc(w, l, pc), l, c, n).Crashed?
    ensures RunWrite(w, l, c, n).World? ==>
      && |RunWrite(w, l, c, n).loops| == |w.loops|
      && RunWrite(AtPc(w, l, pc), l, c, n) == AtPc(RunWrite(w, l, c, n), l, pc)
  {
    hide Drained;
    if RunWrite(w, l, c, n).World? {
      var a, b := RunWrite(AtPc(w, l, pc), l, c, n), AtPc(RunWrite(w, l, c, n), l, pc);
      assert a.loops == b.loops;
    }
  }

  predicate Leads(w: World, step: Step, w': World) {
    Enabled(w, step) && Apply(w, step) == w'
  }

  lemma CloseRun(w: World, l: nat, w1: World)
    requires Leads(w, CloseBranch(l), w1) && w1.World? && w.loops[l].pc.rest[0].conn < |w.conns|
    ensures var head, rest := w.loops[l].pc.rest[0], w.loops[l].pc.rest;
            var u := RunIf(w, l, head.conn, CloseCallback, ClosesFirst(head.revents), false, 0);
            && u.World? && |u.loops| == |w.loops| && w1 == AtPc(u, l, Dispatching(rest, AtRead))
            && |u.conns| == |w.conns| && u.conns[head.conn].outbuf == w.conns[head.conn].outbuf
  {
    var head, rest := w.loops[l].pc.rest[0], w.loops[l].pc.rest;
    ApplyBranches(w, l, false, 0);
    CloseKeepsPc(w, l, head.conn, Dispatching(rest, AtRead));
    if ClosesFirst(head.revents) {
      CloseKeepsBuffer(w, l, head.conn);
    }
    hide Apply, RunClose;
  }

  lemma ReadRun(u: World, w: World, l: nat, eof: bool, rest: seq<Active>, w': World)
    requires u.World? && l < |u.loops| && rest != [] && rest[0].conn < |u.conns|
    requires w == AtPc(u, l, Dispatching(rest, AtRead)) && Leads(w, ReadBranch(l, eof), w')
    ensures var u' := RunIf(u, l, rest[0].conn, ReadCallback, Reads(rest[0].revents), eof, 0);
            && u'.Crashed? == w'.Crashed?
            && (u'.World? ==>
                  && |u'.loops| == |u.loops| && w' == AtPc(u', l, Dispatching(rest, AtWrite))
                  && |u'.conns| == |u.conns| && u'.conns[rest[0].conn].outbuf == u.conns[rest[0].conn].outbuf)
  {
    var c := rest[0].conn;
    ApplyBranches(w, l, eof, 0);
    CloseKeepsPc(u, l, c, Dispatching(rest, AtWrite));
    if RunClose(u, l, c).World? {
      CloseKeepsBuffer(u, l, c);
    }
    assert AtStage(w, l, AtWrite) == AtPc(u, l, Dispatching(rest, AtWrite));
    hide Apply, RunClose;
  }

  lemma WriteRun(u: World, w: World, l: nat, n: nat, rest: seq<Active>)
    requires u.World? && l < |u.loops| && rest != [] && rest[0].conn < |u.conns|
    requires w == AtPc(u, l, Dispatching(rest, AtWrite)) && n <= |u.conns[rest[0].conn].outbuf|
    requires Inv(w, NoDuty)
    ensures var u' := RunIf(u, l, rest[0].conn, WriteCallback, POLLOUT in rest[0].revents, false, n);
            u'.World? && l < |u'.loops| && Leads(w, WriteBranch(l, n), AtPc(u', l, Dispatching(rest[1..], AtClose)))
  {
    hide Inv, Apply, RunWrite;
    WriteBranchKeeps(w, l, n);
    InvIsWorld(Apply(w, WriteBranch(l, n)), NoDuty);
    ApplyBranches(w, l, false, n);
    WriteKeepsPc(u, l, rest[0].conn, n, Dispatching(rest[1..], AtClose));
    assert NextChannel(w, l) == AtPc(u, l, Dispatching(rest[1..], AtClose));
  }

  lemma LeadsKeeps(w: World, l: nat, eof: bool, w1: World, w2: World)
    requires Inv(w, NoDuty) && Leads(w, CloseBranch(l), w1) && Leads(w1, ReadBranch(l, eof), w2)
    ensures w.World? && l < |w.loops| && w1.World? && (w2.World? ==> Inv(w2, NoDuty))
  {
    CloseBranchKeeps(w, l);
    InvIsWorld(w1, NoDuty);
    hide Inv, Apply;
    ReadBranchKeeps(w1, l, eof);
  }

  /** The three branches of a dispatched channel run exactly the callbacks of its flags, in
      their order: the same world comes out, or the same failing assertion. */
  lemma DispatchRunsTheCallbacks(w: World, l: nat, rest: seq<Active>, eof: bool, n: nat, w1: World, w2: World)
    requires Inv(w, NoDuty) && w.World? && l < |w.loops|
    requires w.loops[l].pc == Dispatching(rest, AtClose) && rest != []
    requires Leads(w, CloseBranch(l), w1) && Leads(w1, ReadBranch(l, eof), w2)
    requires rest[0].conn < |w.conns| && n <= |w.conns[rest[0].conn].outbuf|
    ensures var u := RunCallbacks(w, l, rest[0].conn, Callbacks(rest[0].revents), eof, n);
            if w2.Crashed? then u.Crashed?
            else
              && u.World? && l < |u.loops|
              && Leads(w2, WriteBranch(l, n), AtPc(u, l, Dispatching(rest[1..], AtClose)))
  {
    hide Inv, Leads, Enabled, Apply, RunClose, RunWrite, RunCallbacks;
    LeadsKeeps(w, l, eof, w1, w2);
    CloseRun(w, l, w1);
    var c := rest[0].conn;
    var u1 := RunIf(w, l, c, CloseCallback, ClosesFirst(rest[0].revents), eof, n);
    ReadRun(u1, w1, l, eof, rest, w2);
    CallbacksInTurn(w, l, c, rest[0].revents, eof, n);
    if w2.World? {
      WriteRun(RunIf(u1, l, c, ReadCallback, Reads(rest[0].revents), eof, n), w2, l, n, rest);
    }
  }

  // ---------------------------------------------------------------- closing twice

  /** Whatever poll(2) reports for a live connection: its close branch fails no assertion, and
      its read branch does exactly if POLLHUP came without POLLIN but with POLLPRI or POLLRDHUP,
      and the read finds the end of the stream. */
  lemma DoubleCloseIff(w: World, l: nat, eof: bool)
    requires Inv(w, NoDuty) && At(w, l, AtClose)
    ensures var revents := w.loops[l].pc.rest[0].revents;
            var w1 := Apply(w, CloseBranch(l));
            && At(w1, l, AtRead)
            && (Apply(w1, ReadBranch(l, eof)).Crashed? <==>
                eof && POLLHUP in revents && POLLIN !in revents && (POLLPRI in revents || POLLRDHUP in revents))
  {
    HeadExists(w, l);
    hide Inv, Apply, RunIf;
    CloseBranchKeeps(w, l);
    var w1 := Apply(w, CloseBranch(l));
    InvIsWorld(w1, NoDuty);
    CloseRun(w, l, w1);
    ReadBranchKeeps(w1, l, eof);
    var w2 := Apply(w1, ReadBranch(l, eof));
    if w2.Crashed? {
      CrashedHasNoInv(w2);
    }
  }

  lemma HeadExists(w: World, l: nat)
    requires Inv(w, NoDuty) && At(w, l, AtClose)
    ensures w.loops[l].pc.rest[0].conn < |w.conns|
  {
    HeadFacts(w, l);
    hide Inv;
  }

  lemma CrashedHasNoInv(w: World)
    requires w.Crashed?
    ensures !Inv(w, NoDuty)
  {
  }

  /** A second `handleClose` always fails its assertion. */
  lemma SecondCloseCrashes(w: World, l: nat, c: nat)
    requires RunClose(w, l, c).World?
    ensures RunClose(RunClose(w, l, c), l, c) == Crashed
  {
  }

  /** A write branch that follows the close in the same dispatch writes nothing, and neither
      does one that POLLOUT of a stale slot causes. */
  lemma StaleWriteIsHarmless(w: World, l: nat, n: nat)
    requires Inv(w, NoDuty) && At(w, l, AtWrite) && MayTake(w, l, n)
    requires var c := w.loops[l].pc.rest[0].conn;
             c < |w.conns| && (PhaseOf(w.conns[c]) != Live || w.conns[c].outbuf == "")
    ensures Apply(w, WriteBranch(l, n)).World? && Apply(w, WriteBranch(l, n)).conns == w.conns
  {
    HeadFacts(w, l);
    var c := w.loops[l].pc.rest[0].conn;
    ConnFacts(w, c, NoDuty);
    assert InterestInv(w.conns[c]);
    StepKeeps(w, WriteBranch(l, n));
    InvIsWorld(Apply(w, WriteBranch(l, n)), NoDuty);
    ApplyBranches(w, l, false, n);
    hide Inv, StreamInv, Apply, SlotInv;
    assert w.conns[c := w.conns[c]] == w.conns;
  }

  // ---------------------------------------------------------------- nothing is pulled away

  /** Every slot stays where it is, with its owner. */
  ghost predicate KeepsSlots(t: Table<nat>, t': Table<nat>) {
    forall fd :: fd in t ==> fd in t' && t'[fd].owner == t[fd].owner
  }

  /** What loop `l` may see happen while it dispatches: slots stay, and none of its
      connections is destroyed. */
  ghost predicate Calm(w: World, w': World, l: nat)
    requires w.World? && l < |w.loops|
  {
    && w'.World? && |w'.loops| == |w.loops| && |w'.conns| >= |w.conns|
    && KeepsSlots(w.loops[l].table, w'.loops[l].table)
    && forall c :: 0 <= c < |w.conns| && w.conns[c].loop == l ==>
         w'.conns[c].loop == l && w'.conns[c].runs.destroyed == w.conns[c].runs.destroyed
  }

  lemma CalmAfter(w: World, k: nat, c: nat, e: Effect<nat>, l: nat)
    requires w.World? && k < |w.loops| && l < |w.loops| && c < |w.conns| && w.conns[c].loop == e.conn.loop == k
    requires k == l ==> KeepsSlots(w.loops[l].table, e.table) && e.conn.runs.destroyed == w.conns[c].runs.destroyed
    ensures Calm(w, After(w, k, c, e), l)
  {
  }

  lemma CalmRemove(w: World, c: nat, l: nat)
    requires w.World? && l < |w.loops| && RunRemove(w, 0, c).World?
    ensures Calm(w, RunRemove(w, 0, c), l)
  {
    hide ConnName;
  }

  lemma CalmClose(w: World, k: nat, c: nat, l: nat)
    requires w.World? && l < |w.loops| && RunClose(w, k, c).World?
    ensures Calm(w, RunClose(w, k, c), l)
  {
    var e := Closed(w.conns[c], w.loops[k].table, c);
    CalmAfter(w, k, c, e, l);
    if k == 0 {
      CalmRemove(After(w, k, c, e), c, l);
    }
    hide RunRemove;
  }

  lemma CalmSend(w: World, k: nat, c: nat, msg: string, n: nat, l: nat)
    requires w.World? && l < |w.loops| && n <= |msg| && RunSend(w, k, c, msg, n).World?
    ensures Calm(w, RunSend(w, k, c, msg, n), l)
  {
    var conn, t := w.conns[c], w.loops[k].table;
    SentTable(conn, t, c, msg, n, w.notify);
    SentRest(conn, t, c, msg, n, w.notify);
    var e := Sent(conn, t, c, msg, n, w.notify);
    hide Sent;
    CalmAfter(w, k, c, e, l);
  }

  lemma CalmWrite(w: World, k: nat, c: nat, n: nat, l: nat)
    requires w.World? && l < |w.loops| && (c < |w.conns| ==> n <= |w.conns[c].outbuf|) && RunWrite(w, k, c, n).World?
    ensures Calm(w, RunWrite(w, k, c, n), l)
  {
    var e := Drained(w.conns[c], w.loops[k].table, n, w.notify);
    DrainedShape(w.conns[c], w.loops[k].table, n, w.notify);
    hide Drained;
    CalmAfter(w, k, c, e, l);
  }

  /** Any functor at all, for a loop other than the one that runs it. */
  lemma CalmTask(w: World, k: nat, t: Task, n: nat, l: nat)
    requires w.World? && l < |w.loops| && k < |w.loops| && k != l
    requires (t.SendInLoop? ==> n <= |t.msg|) && RunTask(w, k, t, n).World?
    ensures Calm(w, RunTask(w, k, t, n), l)
  {
    hide RunRemove, RunSend, Calm;
    match t
    case Establish(c) => CalmAfter(w, k, c, Established(w.conns[c], w.loops[k].table, c), l);
    case RemoveInLoop(c) => CalmRemoval(w, k, c, l);
    case Destroy(c) => CalmAfter(w, k, c, Destroyed(w.conns[c], w.loops[k].table, c), l);
    case SendInLoop(c, msg) => CalmSend(w, k, c, msg, n, l);
    case ShutdownInLoop(c) => CalmShutdown(w, k, c, l);
    case UserTask => CalmStill(w, l);
  }

  lemma CalmRemoval(w: World, k: nat, c: nat, l: nat)
    requires w.World? && l < |w.loops| && RunRemove(w, k, c).World?
    ensures Calm(w, RunRemove(w, k, c), l)
  {
    assert k == 0;
    CalmRemove(w, c, l);
  }

  lemma CalmShutdown(w: World, k: nat, c: nat, l: nat)
    requires w.World? && l < |w.loops| && RunShutdown(w, k, c).World?
    ensures Calm(w, RunShutdown(w, k, c), l)
  {
  }

  lemma CalmStill(w: World, l: nat)
    requires w.World? && l < |w.loops|
    ensures Calm(w, w, l)
  {
  }

  lemma CalmAccept(w: World, fd: nat, io: nat, l: nat)
    requires w.World? && io < |w.loops| && l < |w.loops| && RunAccept(w, fd, io).World?
    ensures Calm(w, RunAccept(w, fd, io), l)
  {
    var c, w' := |w.conns|, Appended(w, fd, io);
    if io == 0 {
      CalmAfter(w', 0, c, Established(w'.conns[c], w'.loops[0].table, c), l);
    }
  }

  lemma CalmBranch(w: World, step: Step, l: nat)
    requires Enabled(w, step) && l < |w.loops| && Apply(w, step).World?
    requires step.CloseBranch? || step.ReadBranch? || step.WriteBranch?
    ensures Calm(w, Apply(w, step), l)
  {
    hide RunClose, RunWrite;
    match step
    case CloseBranch(k) =>
      if ClosesFirst(w.loops[k].pc.rest[0].revents) {
        CalmClose(AtStage(w, k, AtRead), k, w.loops[k].pc.rest[0].conn, l);
      }
    case ReadBranch(k, eof) =>
      if Reads(w.loops[k].pc.rest[0].revents) && eof {
        CalmClose(AtStage(w, k, AtWrite), k, w.loops[k].pc.rest[0].conn, l);
      }
    case WriteBranch(k, n) =>
      if POLLOUT in w.loops[k].pc.rest[0].revents {
        CalmWrite(NextChannel(w, k), k, w.loops[k].pc.rest[0].conn, n, l);
      }
  }

  /** No step removes a slot of a loop that iterates its active channels, and none destroys one
      of its connections: that happens to a loop only while it executes functors. */
  lemma DispatchIsUndisturbed(w: World, step: Step, l: nat)
    requires Inv(w, NoDuty) && Enabled(w, step) && !Fatal(w, step) && l < |w.loops| && w.loops[l].pc.Dispatching?
    ensures Calm(w, Apply(w, step), l)
  {
    StepKeeps(w, step);
    InvIsWorld(Apply(w, step), NoDuty);
    hide Inv, Fatal, RunSend, RunTask, RunAccept, AnswerOk, MayTake, Unowned;
    if step.CloseBranch? || step.ReadBranch? || step.WriteBranch? {
      CalmBranch(w, step, l);
    } else if step.Accept? {
      CalmAccept(w, step.fd, step.io, l);
    } else if step.RunFirst? {
      CalmTask(Taken(w, step.l), step.l, w.loops[step.l].batch[0], step.n, l);
    } else if step.UserSend? && w.conns[step.c].state == kConnected {
      CalmSend(w, step.l, step.c, step.msg, step.n, l);
    } else if ChangesOne(step) {
      CalmOne(w, step, l);
    } else if ChangesNone(step) {
      CalmNone(w, step, l);
    } else {
      CalmStill(w, l);
    }
  }

  predicate ChangesOne(step: Step) {
    step.UserShutdown? || step.ForeignSend? || step.ForeignShutdown? || step.Free?
  }

  predicate ChangesNone(step: Step) {
    step.PollReturns? || step.Swap? || step.BatchDone? || step.PostUser? || step.ForeignPost?
  }

  lemma CalmOne(w: World, step: Step, l: nat)
    requires Enabled(w, step) && l < |w.loops| && Apply(w, step).World? && ChangesOne(step)
    ensures Calm(w, Apply(w, step), l)
  {
    hide Unowned, IsHandling, Calm;
    match step
    case UserShutdown(_, c) => CalmConn(w, Apply(w, step), c, HalfClosed(w.conns[c]), l);
    case ForeignSend(c, _) => CalmConn(w, Apply(w, step), c, SendTested(w.conns[c]), l);
    case ForeignShutdown(c) => CalmConn(w, Apply(w, step), c, ShutdownTested(w.conns[c]), l);
    case Free(c) => CalmConn(w, Apply(w, step), c, w.conns[c].(freed := true), l);
  }

  lemma CalmNone(w: World, step: Step, l: nat)
    requires Enabled(w, step) && l < |w.loops| && Apply(w, step).World? && ChangesNone(step)
    ensures Calm(w, Apply(w, step), l)
  {
    hide AnswerOk, Calm;
    CalmLoop(w, Apply(w, step), l);
  }

  lemma CalmConn(w: World, w': World, c: nat, conn: Conn, l: nat)
    requires w.World? && w'.World? && l < |w.loops| && w'.loops == w.loops && c < |w.conns|
    requires w'.conns == w.conns || w'.conns == w.conns[c := conn]
    requires conn.loop == w.conns[c].loop && conn.runs == w.conns[c].runs
    ensures Calm(w, w', l)
  {
  }

  lemma CalmLoop(w: World, w': World, l: nat)
    requires w.World? && w'.World? && l < |w.loops| && |w'.loops| == |w.loops|
    requires w'.loops[l].table == w.loops[l].table && w'.conns == w.conns
    ensures Calm(w, w', l)
  {
  }
}
