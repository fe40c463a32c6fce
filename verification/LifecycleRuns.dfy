/** Runs from a fresh server that reach what `LifecycleSafety` says can go wrong. */
module LifecycleRuns {
  import opened PollTable
  import opened Connection
  import opened Stream
  import opened Naming
  import opened Lifecycle
  import opened LifecycleInv
  import opened LifecycleSafety

  /** A server with the base loop alone, which has just started. */
  const FRESH := World("S", false, [Loop(Polling, map[], [], [])], [], map[], multiset{})

  /** The steps `steps` lead from `w` to `w'`. */
  predicate Leads(w: World, steps: seq<Step>, w': World) {
    Legal(w, steps) && Exec(w, steps) == w'
  }

  lemma LeadsOne(w: World, step: Step)
    requires Enabled(w, step)
    ensures Leads(w, [step], Apply(w, step))
  {
    assert [step][1..] == [];
    assert Legal(Apply(w, step), []);
  }

  lemma {:induction false} LeadsOn(w: World, a: seq<Step>, w1: World, b: seq<Step>, w2: World)
    requires Leads(w, a, w1) && Leads(w1, b, w2)
    ensures Leads(w, a + b, w2)
    decreases |a|
  {
    if a == [] {
      assert a + b == b;
    } else {
      assert (a + b)[0] == a[0] && (a + b)[1..] == a[1..] + b;
      LeadsOn(Apply(w, a[0]), a[1..], w1, b, w2);
    }
  }

  lemma Then(w: World, a: seq<Step>, w1: World, step: Step)
    requires Leads(w, a, w1) && Enabled(w1, step)
    ensures Leads(w, a + [step], Apply(w1, step))
  {
    LeadsOne(w1, step);
    LeadsOn(w, a, w1, [step], Apply(w1, step));
  }

  /** The base loop in a given place, with its table and the one connection there is. */
  function One(p: Loop, conn: Conn, registry: map<string, nat>, pending: multiset<Task>): World {
    World("S", false, [p], [conn], registry, pending)
  }

  const NAMES := map[ConnName("S", 0) := 0]
  const OPEN: Table<nat> := map[5 := Watch(0, READ_EVENT, false)]
  const UP := Conn(0, 5, kConnected, READ_EVENT, true, "", "", [], Runs(1, 0, 0, 0), [], false, false)
  const IDLE := Dispatching([], AtClose)

  /** Two worlds with the same parts. */
  lemma Same(a: World, b: World)
    requires a.World? && b.World? && |a.loops| == |b.loops| == 1 && |a.conns| == |b.conns| == 1
    requires a.loops[0] == b.loops[0] && a.conns[0] == b.conns[0]
    requires (a.server, a.notify, a.registry, a.pending) == (b.server, b.notify, b.registry, b.pending)
    ensures a == b
  {
    assert a.loops == b.loops && a.conns == b.conns;
  }

  /** A connection is accepted and established. */
  lemma Accepted() returns (steps: seq<Step>)
    ensures Leads(FRESH, steps, One(Loop(IDLE, OPEN, [], []), UP, NAMES, multiset{}))
  {
    var w1 := FRESH.(loops := [Loop(IDLE, map[], [], [])]);
    LeadsOne(FRESH, PollReturns(0, []));
    assert ActiveOf(map[], []) == [];
    assert Apply(FRESH, PollReturns(0, [])) == w1;
    assert Enabled(w1, Accept(5, 0));
    Then(FRESH, [PollReturns(0, [])], w1, Accept(5, 0));
    steps := [PollReturns(0, [])] + [Accept(5, 0)];
    var w2 := Apply(w1, Accept(5, 0));
    assert w2.loops[0].table == OPEN && w2.conns[0].events == READ_EVENT;
    Same(w2, One(Loop(IDLE, OPEN, [], []), UP, NAMES, multiset{}));
  }

  // ---------------------------------------------------------------- a byte behind the half-close

  const SEND := SendInLoop(0, "x")

  /** Another thread has passed the test of `send`, and the loop has half-closed since. */
  const FIN := UP.(state := kDisconnecting, calls := [ShutdownWrite], foreign := true)

  /** The test of `send`, on another thread. */
  lemma Tested() returns (steps: seq<Step>)
    ensures Leads(FRESH, steps, One(Loop(IDLE, OPEN, [], []), UP.(foreign := true), NAMES, multiset{SEND}))
  {
    var up := One(Loop(IDLE, OPEN, [], []), UP, NAMES, multiset{});
    var a := Accepted();
    Then(FRESH, a, up, ForeignSend(0, "x"));
    assert multiset{} + multiset{SEND} == multiset{SEND};
    Same(Apply(up, ForeignSend(0, "x")), One(Loop(IDLE, OPEN, [], []), UP.(foreign := true), NAMES, multiset{SEND}));
    steps := a + [ForeignSend(0, "x")];
  }

  lemma TestedThenShutdown() returns (steps: seq<Step>)
    ensures Leads(FRESH, steps, One(Loop(IDLE, OPEN, [], []), FIN, NAMES, multiset{SEND}))
  {
    var w := One(Loop(IDLE, OPEN, [], []), UP.(foreign := true), NAMES, multiset{SEND});
    var a := Tested();
    Then(FRESH, a, w, UserShutdown(0, 0));
    var w' := Apply(w, UserShutdown(0, 0));
    assert w'.conns[0].calls == [] + [ShutdownWrite];
    Same(w', One(Loop(IDLE, OPEN, [], []), FIN, NAMES, multiset{SEND}));
    steps := a + [UserShutdown(0, 0)];
  }

  /** The functor is posted and comes into the next batch. */
  lemma PostedAndSwapped(w: World, steps: seq<Step>, t0: Table<nat>, conn: Conn, names: map<string, nat>, t: Task)
    returns (more: seq<Step>)
    requires Leads(w, steps, One(Loop(IDLE, t0, [], []), conn, names, multiset{t})) && conn.loop == 0
    requires IsLate(t) && t.c == 0
    ensures Leads(w, more, One(Loop(Executing, t0, [t], []), conn, names, multiset{}))
  {
    var w0 := One(Loop(IDLE, t0, [], []), conn, names, multiset{t});
    var w1 := One(Loop(IDLE, t0, [], [t]), conn, names, multiset{});
    Then(w, steps, w0, ForeignPost(t));
    Same(Apply(w0, ForeignPost(t)), w1);
    Then(w, steps + [ForeignPost(t)], w1, Swap(0));
    Same(Apply(w1, Swap(0)), One(Loop(Executing, t0, [t], []), conn, names, multiset{}));
    more := steps + [ForeignPost(t)] + [Swap(0)];
  }

  /** Accept, establish, the test of `send` on another thread, `shutdown`, and then the functor:
      a byte is written behind the half-close. */
  lemma WriteFollowsFin() returns (steps: seq<Step>)
    ensures Init(FRESH) && Legal(FRESH, steps)
    ensures var w := Exec(FRESH, steps);
            && w.World? && |w.conns| == 1 && w.conns[0].calls == [ShutdownWrite, Write("x")]
            && !FinIsLast(w.conns[0].calls)
  {
    var a := TestedThenShutdown();
    var b := PostedAndSwapped(FRESH, a, OPEN, FIN, NAMES, SEND);
    var w := One(Loop(Executing, OPEN, [SEND], []), FIN, NAMES, multiset{});
    Then(FRESH, b, w, RunFirst(0, 1));
    steps := b + [RunFirst(0, 1)];
    var calls := Apply(w, RunFirst(0, 1)).conns[0].calls;
    assert calls == [ShutdownWrite] + [Write("x"[..1])] && "x"[..1] == "x";
    assert calls[0] == ShutdownWrite;
  }

  // ---------------------------------------------------------------- two half-closes

  const FINISH := ShutdownInLoop(0)

  /** `shutdown` on another thread: the state moves on, a byte is still buffered. */
  const WAITING :=
    UP.(state := kDisconnecting, foreign := true, events := READ_EVENT + WRITE_EVENT, outbuf := "x", accepted := "x",
        calls := [Write("")])

  const ASKING: Table<nat> := map[5 := Watch(0, READ_EVENT + WRITE_EVENT, false)]

  const BUFFERED := WAITING.(state := kConnected, foreign := false)

  /** write(2) takes nothing of a message. */
  lemma Buffers() returns (steps: seq<Step>)
    ensures Leads(FRESH, steps, One(Loop(IDLE, ASKING, [], []), BUFFERED, NAMES, multiset{}))
  {
    var up := One(Loop(IDLE, OPEN, [], []), UP, NAMES, multiset{});
    var a := Accepted();
    Then(FRESH, a, up, UserSend(0, 0, "x", 0));
    var w := Apply(up, UserSend(0, 0, "x", 0));
    assert w.conns[0].calls == [] + [Write("")] && w.conns[0].outbuf == "x" && w.conns[0].accepted == "x";
    assert w.loops[0].table == ASKING;
    Same(w, One(Loop(IDLE, ASKING, [], []), BUFFERED, NAMES, multiset{}));
    steps := a + [UserSend(0, 0, "x", 0)];
  }

  lemma ShutdownBeforeDrain() returns (steps: seq<Step>)
    ensures Leads(FRESH, steps, One(Loop(IDLE, ASKING, [], []), WAITING, NAMES, multiset{FINISH}))
  {
    var w := One(Loop(IDLE, ASKING, [], []), BUFFERED, NAMES, multiset{});
    var a := Buffers();
    Then(FRESH, a, w, ForeignShutdown(0));
    assert multiset{} + multiset{FINISH} == multiset{FINISH};
    Same(Apply(w, ForeignShutdown(0)), One(Loop(IDLE, ASKING, [], []), WAITING, NAMES, multiset{FINISH}));
    steps := a + [ForeignShutdown(0)];
  }

  /** The loop goes back to poll(2), which reports `revents`. */
  lemma Polled(w: World, steps: seq<Step>, t: Table<nat>, conn: Conn, pending: multiset<Task>, revents: Mask)
    returns (more: seq<Step>)
    requires Leads(w, steps, One(Loop(IDLE, t, [], []), conn, NAMES, pending))
    requires 5 in t && t[5].owner == 0 && !t[5].masked && revents <= t[5].events + {POLLERR, POLLHUP, POLLNVAL}
    ensures Leads(w, more, One(Loop(Dispatching([Active(0, revents)], AtClose), t, [], []), conn, NAMES, pending))
  {
    var w0 := One(Loop(IDLE, t, [], []), conn, NAMES, pending);
    var w1 := One(Loop(Executing, t, [], []), conn, NAMES, pending);
    var w2 := One(Loop(Polling, t, [], []), conn, NAMES, pending);
    Then(w, steps, w0, Swap(0));
    Same(Apply(w0, Swap(0)), w1);
    Then(w, steps + [Swap(0)], w1, BatchDone(0));
    Same(Apply(w1, BatchDone(0)), w2);
    var poll := PollReturns(0, [Ready(5, revents)]);
    assert AnswerOk(t, [Ready(5, revents)]);
    Then(w, steps + [Swap(0)] + [BatchDone(0)], w2, poll);
    assert ActiveOf(t, [Ready(5, revents)]) == [Active(0, revents)];
    Same(Apply(w2, poll), One(Loop(Dispatching([Active(0, revents)], AtClose), t, [], []), conn, NAMES, pending));
    more := steps + [Swap(0)] + [BatchDone(0)] + [poll];
  }

  /** The buffer drains, the half-close is made, and then the functor of the other thread makes
      it again. */
  lemma SecondFinFollows() returns (steps: seq<Step>)
    ensures Init(FRESH) && Legal(FRESH, steps)
    ensures var w := Exec(FRESH, steps);
            && w.World? && |w.conns| == 1 && !FinIsLast(w.conns[0].calls)
            && w.conns[0].calls == [Write(""), Write("x"), ShutdownWrite, ShutdownWrite]
  {
    var a := ShutdownBeforeDrain();
    var b := Polled(FRESH, a, ASKING, WAITING, multiset{FINISH}, {POLLOUT});
    var rest := [Active(0, {POLLOUT})];
    var c, drained := Drains(b);
    var d := PostedAndSwapped(FRESH, c, ASKING, drained, NAMES, FINISH);
    var w := One(Loop(Executing, ASKING, [FINISH], []), drained, NAMES, multiset{});
    Then(FRESH, d, w, RunFirst(0, 0));
    steps := d + [RunFirst(0, 0)];
    var calls := Apply(w, RunFirst(0, 0)).conns[0].calls;
    assert calls == [Write(""), Write("x"), ShutdownWrite] + [ShutdownWrite];
    assert calls[2] == ShutdownWrite;
  }

  lemma Drains(steps: seq<Step>) returns (more: seq<Step>, conn: Conn)
    requires Leads(FRESH, steps,
                   One(Loop(Dispatching([Active(0, {POLLOUT})], AtClose), ASKING, [], []), WAITING, NAMES,
                       multiset{FINISH}))
    ensures conn == WAITING.(events := READ_EVENT, outbuf := "", calls := [Write(""), Write("x"), ShutdownWrite])
    ensures Leads(FRESH, more, One(Loop(IDLE, ASKING, [], []), conn, NAMES, multiset{FINISH}))
  {
    conn := WAITING.(events := READ_EVENT, outbuf := "", calls := [Write(""), Write("x"), ShutdownWrite]);
    var rest := [Active(0, {POLLOUT})];
    var w0 := One(Loop(Dispatching(rest, AtClose), ASKING, [], []), WAITING, NAMES, multiset{FINISH});
    var w1 := One(Loop(Dispatching(rest, AtRead), ASKING, [], []), WAITING, NAMES, multiset{FINISH});
    var w2 := One(Loop(Dispatching(rest, AtWrite), ASKING, [], []), WAITING, NAMES, multiset{FINISH});
    Then(FRESH, steps, w0, CloseBranch(0));
    Same(Apply(w0, CloseBranch(0)), w1);
    Then(FRESH, steps + [CloseBranch(0)], w1, ReadBranch(0, false));
    Same(Apply(w1, ReadBranch(0, false)), w2);
    Then(FRESH, steps + [CloseBranch(0)] + [ReadBranch(0, false)], w2, WriteBranch(0, 1));
    var w3 := Apply(w2, WriteBranch(0, 1));
    assert "x"[..1] == "x" && "x"[1..] == "";
    assert w3.conns[0].calls == [Write("")] + [Write("x")] + [ShutdownWrite];
    assert w3.conns[0].events == READ_EVENT && rest[1..] == [];
    Same(w3, One(Loop(IDLE, ASKING, [], []), conn, NAMES, multiset{FINISH}));
    more := steps + [CloseBranch(0)] + [ReadBranch(0, false)] + [WriteBranch(0, 1)];
  }

  // ---------------------------------------------------------------- bytes for a closed connection

  const CLOSED :=
    UP.(state := kDisconnected, foreign := true, events := NONE_EVENT, runs := Runs(1, 1, 1, 0))

  const MUTED: Table<nat> := map[5 := Watch(0, NONE_EVENT, true)]

  /** The peer closes while the functor of another thread is on its way. */
  lemma ClosedMeanwhile() returns (steps: seq<Step>)
    ensures Leads(FRESH, steps, One(Loop(IDLE, MUTED, [], [Destroy(0)]), CLOSED, map[], multiset{SEND}))
  {
    var up := UP.(foreign := true);
    var a := Tested();
    var b := Polled(FRESH, a, OPEN, up, multiset{SEND}, {POLLIN});
    var rest := [Active(0, {POLLIN})];
    var w0 := One(Loop(Dispatching(rest, AtClose), OPEN, [], []), up, NAMES, multiset{SEND});
    var w1 := One(Loop(Dispatching(rest, AtRead), OPEN, [], []), up, NAMES, multiset{SEND});
    var w2 := One(Loop(Dispatching(rest, AtWrite), MUTED, [], [Destroy(0)]), CLOSED, map[], multiset{SEND});
    Then(FRESH, b, w0, CloseBranch(0));
    Same(Apply(w0, CloseBranch(0)), w1);
    Then(FRESH, b + [CloseBranch(0)], w1, ReadBranch(0, true));
    ReadCloses(w1, w2);
    Then(FRESH, b + [CloseBranch(0)] + [ReadBranch(0, true)], w2, WriteBranch(0, 0));
    assert rest[1..] == [];
    Same(Apply(w2, WriteBranch(0, 0)), One(Loop(IDLE, MUTED, [], [Destroy(0)]), CLOSED, map[], multiset{SEND}));
    steps := b + [CloseBranch(0)] + [ReadBranch(0, true)] + [WriteBranch(0, 0)];
  }

  lemma ReadCloses(w1: World, w2: World)
    requires var rest := [Active(0, {POLLIN})];
             && w1 == One(Loop(Dispatching(rest, AtRead), OPEN, [], []), UP.(foreign := true), NAMES, multiset{SEND})
             && w2 == One(Loop(Dispatching(rest, AtWrite), MUTED, [], [Destroy(0)]), CLOSED, map[], multiset{SEND})
    ensures Apply(w1, ReadBranch(0, true)) == w2
  {
    hide ConnName;
    var w' := Apply(w1, ReadBranch(0, true));
    assert w'.loops[0].table == MUTED;
    assert w'.registry == map[];
    assert w'.loops[0].queue == [] + [Destroy(0)];
    Same(w', w2);
  }

  /** The functor runs when the connection has been destroyed, and write(2) takes nothing: the
      assertion of `updateChannel` fails. */
  lemma BytesForTheGone() returns (steps: seq<Step>)
    ensures Init(FRESH) && Legal(FRESH, steps) && Exec(FRESH, steps) == Crashed && AnyHarm(FRESH, steps)
  {
    var a := ClosedMeanwhile();
    var w0 := One(Loop(IDLE, MUTED, [], [Destroy(0)]), CLOSED, map[], multiset{SEND});
    var w1 := One(Loop(IDLE, MUTED, [], [Destroy(0), SEND]), CLOSED, map[], multiset{});
    var w2 := One(Loop(Executing, MUTED, [Destroy(0), SEND], []), CLOSED, map[], multiset{});
    var gone := CLOSED.(runs := Runs(1, 1, 1, 1));
    var w3 := One(Loop(Executing, map[], [SEND], []), gone, map[], multiset{});
    Then(FRESH, a, w0, ForeignPost(SEND));
    Same(Apply(w0, ForeignPost(SEND)), w1);
    Then(FRESH, a + [ForeignPost(SEND)], w1, Swap(0));
    Same(Apply(w1, Swap(0)), w2);
    Then(FRESH, a + [ForeignPost(SEND)] + [Swap(0)], w2, RunFirst(0, 0));
    assert [Destroy(0), SEND][1..] == [SEND];
    assert Apply(w2, RunFirst(0, 0)).loops[0].table == map[];
    Same(Apply(w2, RunFirst(0, 0)), w3);
    var b := a + [ForeignPost(SEND)] + [Swap(0)] + [RunFirst(0, 0)];
    Then(FRESH, b, w3, RunFirst(0, 0));
    steps := b + [RunFirst(0, 0)];
    CrashesIff(FRESH, steps);
  }

  // ---------------------------------------------------------------- two closes

  /** poll(2) reports POLLHUP with POLLPRI, and the read finds the end of the stream. */
  lemma ClosedTwice() returns (steps: seq<Step>)
    ensures Init(FRESH) && Legal(FRESH, steps) && Exec(FRESH, steps) == Crashed
  {
    var a := Accepted();
    var b := Polled(FRESH, a, OPEN, UP, multiset{}, {POLLHUP, POLLPRI});
    var w := One(Loop(Dispatching([Active(0, {POLLHUP, POLLPRI})], AtClose), OPEN, [], []), UP, NAMES, multiset{});
    Then(FRESH, b, w, CloseBranch(0));
    var w' := Apply(w, CloseBranch(0));
    Then(FRESH, b + [CloseBranch(0)], w', ReadBranch(0, true));
    steps := b + [CloseBranch(0)] + [ReadBranch(0, true)];
  }
}
