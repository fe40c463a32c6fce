/** The invariant of all event loops together, and every step keeps it or is fatal. */
module LifecycleInv {
  import opened PollTable
  import opened Connection
  import opened Stream
  import opened Naming
  import opened Lifecycle

  /** The phases of a connection, told apart by which of its callbacks have run. */
  datatype Phase = Establishing | Live | AwaitingErase | AwaitingDestroy | Gone

  function PhaseOf(c: Conn): Phase {
    if c.runs.established == 0 then Establishing
    else if c.runs.closed == 0 then Live
    else if c.runs.erased == 0 then AwaitingErase
    else if c.runs.destroyed == 0 then AwaitingDestroy
    else Gone
  }

  predicate Registered(p: Phase) {
    p == Live || p == AwaitingErase || p == AwaitingDestroy
  }

  predicate Named(p: Phase) {
    p == Establishing || p == Live || p == AwaitingErase
  }

  /** The functors that carry a connection from phase to phase. */
  predicate IsDuty(t: Task) {
    t.Establish? || t.RemoveInLoop? || t.Destroy?
  }

  /** The functors that other threads post. */
  predicate IsLate(t: Task) {
    t.SendInLoop? || t.ShutdownInLoop?
  }

  /** A functor that must still run, or is just running. */
  datatype Duty = NoDuty | Owes(l: nat, t: Task)

  /** The one functor connection `c` waits for in its phase, and in whose queue. */
  function DutyOf(conn: Conn, c: nat): Duty {
    match PhaseOf(conn)
    case Establishing => Owes(conn.loop, Establish(c))
    case AwaitingErase => Owes(0, RemoveInLoop(c))
    case AwaitingDestroy => Owes(conn.loop, Destroy(c))
    case _ => NoDuty
  }

  function Queued(p: Loop, t: Task): nat {
    multiset(p.batch + p.queue)[t]
  }

  function Wanted(conns: seq<Conn>, l: nat, t: Task): nat {
    if IsDuty(t) && t.c < |conns| && DutyOf(conns[t.c], t.c) == Owes(l, t) then 1 else 0
  }

  // ---------------------------------------------------------------- the invariant

  predicate InOrder(r: Runs) {
    1 >= r.established >= r.closed >= r.erased >= r.destroyed
  }

  /** One connection by itself. After its close the channel asks for nothing, unless a late
      `sendInLoop` has left bytes and enabled writing again. */
  ghost predicate ConnInv(c: Conn) {
    && InOrder(c.runs) && StreamInv(c) && (c.freed ==> PhaseOf(c) == Gone)
    && match PhaseOf(c)
       case Establishing => c.state == kConnecting && !c.indexed && c.events == NONE_EVENT && !c.foreign
       case Live => CloseOk(c) && c.indexed && READ_EVENT <= c.events
       case Gone => c.state == kDisconnected && c.indexed && c.events == NONE_EVENT
       case _ => c.state == kDisconnected && c.indexed && (c.events == NONE_EVENT || c.events == WRITE_EVENT)
  }

  /** A connection's slot. While it is live the slot asks for at least what the channel asks
      for, although `disableWrite` does not tell the poller. */
  predicate SlotInv(conn: Conn, t: Table<nat>, c: nat) {
    match PhaseOf(conn)
    case Establishing => conn.fd !in t
    case Live => conn.fd in t && t[conn.fd].owner == c && !t[conn.fd].masked
                 && conn.events <= t[conn.fd].events <= READ_EVENT + WRITE_EVENT
    case Gone => conn.fd in t ==> t[conn.fd].owner != c
    case _ => conn.fd in t && t[conn.fd] == Watch(c, conn.events, true)
  }

  predicate OwnerInv(conns: seq<Conn>, l: nat, fd: int, o: nat) {
    o < |conns| && conns[o].loop == l && conns[o].fd == fd && Registered(PhaseOf(conns[o]))
  }

  predicate Placed(w: World)
    requires w.World?
  {
    0 < |w.loops| && forall c :: 0 <= c < |w.conns| ==> w.conns[c].loop < |w.loops|
  }

  ghost predicate ConnsInv(conns: seq<Conn>) {
    forall c :: 0 <= c < |conns| ==> ConnInv(conns[c])
  }

  ghost predicate SlotsInv(w: World)
    requires w.World? && Placed(w)
  {
    forall c :: 0 <= c < |w.conns| ==> SlotInv(w.conns[c], w.loops[w.conns[c].loop].table, c)
  }

  ghost predicate OwnersInv(w: World)
    requires w.World?
  {
    forall l, fd :: 0 <= l < |w.loops| && fd in w.loops[l].table ==>
      OwnerInv(w.conns, l, fd, w.loops[l].table[fd].owner)
  }

  /** The kernel gives out no descriptor that is still open. */
  ghost predicate FdInv(conns: seq<Conn>) {
    forall c, d :: 0 <= c < d < |conns| && !conns[c].freed && !conns[d].freed ==> conns[c].fd != conns[d].fd
  }

  ghost predicate RegistryInv(w: World)
    requires w.World?
  {
    forall c :: 0 <= c < |w.conns| ==>
      && (ConnName(w.server, c) in w.registry <==> Named(PhaseOf(w.conns[c])))
      && (ConnName(w.server, c) in w.registry ==> w.registry[ConnName(w.server, c)] == c)
  }

  /** Every queue holds exactly the functors the connections wait for, once each, save the
      one that is just running. */
  ghost predicate QueueInv(w: World, duty: Duty)
    requires w.World?
  {
    forall l, t :: 0 <= l < |w.loops| && IsDuty(t) ==>
      Queued(w.loops[l], t) + (if duty == Owes(l, t) then 1 else 0) == Wanted(w.conns, l, t)
  }

  /** A functor of another thread keeps its connection alive, and was posted for one that has
      been connected. */
  predicate LateOk(conns: seq<Conn>, t: Task) {
    && IsLate(t) && t.c < |conns| && conns[t.c].foreign && !conns[t.c].freed
    && (t.ShutdownInLoop? ==> conns[t.c].state != kConnected)
  }

  predicate LateIn(conns: seq<Conn>, l: nat, tasks: seq<Task>) {
    forall k :: 0 <= k < |tasks| && IsLate(tasks[k]) ==> LateOk(conns, tasks[k]) && conns[tasks[k].c].loop == l
  }

  ghost predicate LateInv(w: World)
    requires w.World?
  {
    && (forall t :: t in w.pending ==> LateOk(w.conns, t))
    && (forall l :: 0 <= l < |w.loops| ==> LateIn(w.conns, l, w.loops[l].batch) && LateIn(w.conns, l, w.loops[l].queue))
  }

  /** A connection that is dispatched was live when poll(2) returned, and is until a branch
      closes it. */
  predicate EntryInv(conns: seq<Conn>, l: nat, e: Active, stage: Stage) {
    && e.conn < |conns| && conns[e.conn].loop == l && Registered(PhaseOf(conns[e.conn]))
    && (PhaseOf(conns[e.conn]) == Live || !IsWriting(conns[e.conn]))
    && (stage == AtClose ==> PhaseOf(conns[e.conn]) == Live)
    && (stage == AtRead ==> (PhaseOf(conns[e.conn]) == Live <==> !ClosesFirst(e.revents)))
  }

  predicate RestInv(conns: seq<Conn>, l: nat, rest: seq<Active>, stage: Stage) {
    && (forall k :: 0 <= k < |rest| ==> EntryInv(conns, l, rest[k], if k == 0 then stage else AtClose))
    && (forall j, k :: 0 <= j < k < |rest| ==> rest[j].conn != rest[k].conn)
  }

  predicate PcInv(conns: seq<Conn>, l: nat, p: Loop) {
    && (!p.pc.Executing? ==> p.batch == [])
    && (p.pc.Dispatching? ==> RestInv(conns, l, p.pc.rest, p.pc.stage))
  }

  ghost predicate PcsInv(w: World)
    requires w.World?
  {
    forall l :: 0 <= l < |w.loops| ==> PcInv(w.conns, l, w.loops[l])
  }

  ghost predicate Inv(w: World, duty: Duty) {
    && w.World? && Placed(w) && ConnsInv(w.conns) && SlotsInv(w) && OwnersInv(w) && FdInv(w.conns)
    && RegistryInv(w) && QueueInv(w, duty) && LateInv(w) && PcsInv(w)
  }

  // ---------------------------------------------------------------- reading it

  lemma InvIsWorld(w: World, duty: Duty)
    requires Inv(w, duty)
    ensures w.World? && 0 < |w.loops|
  {
  }

  lemma ConnFacts(w: World, c: nat, duty: Duty)
    requires Inv(w, duty) && c < |w.conns|
    ensures w.conns[c].loop < |w.loops| && ConnInv(w.conns[c])
    ensures SlotInv(w.conns[c], w.loops[w.conns[c].loop].table, c)
    ensures ConnName(w.server, c) in w.registry <==> Named(PhaseOf(w.conns[c]))
  {
    hide ConnInv, SlotInv;
  }

  lemma PcFacts(w: World, l: nat, duty: Duty)
    requires Inv(w, duty) && l < |w.loops|
    ensures PcInv(w.conns, l, w.loops[l])
  {
    hide PcInv;
  }

  lemma OwnerFacts(w: World, l: nat, fd: int, duty: Duty)
    requires Inv(w, duty) && l < |w.loops| && fd in w.loops[l].table
    ensures OwnerInv(w.conns, l, fd, w.loops[l].table[fd].owner)
  {
    hide OwnerInv;
  }

  /** A connection that is gone but not freed has no slot at its descriptor. */
  lemma GoneHasNoSlot(w: World, c: nat, duty: Duty)
    requires Inv(w, duty) && c < |w.conns| && PhaseOf(w.conns[c]) == Gone && !w.conns[c].freed
    ensures w.conns[c].loop < |w.loops| && w.conns[c].fd !in w.loops[w.conns[c].loop].table
  {
    ConnFacts(w, c, duty);
    var l, fd := w.conns[c].loop, w.conns[c].fd;
    if fd in w.loops[l].table {
      OwnerFacts(w, l, fd, duty);
      var o := w.loops[l].table[fd].owner;
      ConnFacts(w, o, duty);
    }
  }

  /** A functor that runs is the one its connection waits for. */
  lemma RunningIsDue(w: World, l: nat, t: Task)
    requires Inv(w, Owes(l, t)) && l < |w.loops| && IsDuty(t)
    ensures t.c < |w.conns| && DutyOf(w.conns[t.c], t.c) == Owes(l, t)
  {
    hide PcsInv, LateInv, RegistryInv, FdInv, OwnersInv, SlotsInv, ConnsInv, DutyOf;
    assert Wanted(w.conns, l, t) >= 1;
  }

  // ---------------------------------------------------------------- queues

  /** Posting touches nothing but the queue. */
  lemma PostKeepsRest(w: World, l: nat, t: Task, duty: Duty)
    requires Inv(w, duty) && l < |w.loops|
    ensures var w' := Post(w, l, t);
            Placed(w') && ConnsInv(w'.conns) && SlotsInv(w') && OwnersInv(w') && FdInv(w'.conns)
            && RegistryInv(w') && PcsInv(w')
  {
    hide ConnInv, SlotInv, OwnerInv, RestInv, QueueInv, LateInv;
  }

  lemma PostKeepsQueues(w: World, l: nat, t: Task, duty: Duty)
    requires w.World? && QueueInv(w, duty) && l < |w.loops| && (duty == Owes(l, t) || !IsDuty(t))
    ensures QueueInv(Post(w, l, t), if IsDuty(t) then NoDuty else duty)
  {
    var w' := Post(w, l, t);
    var duty' := if IsDuty(t) then NoDuty else duty;
    PostedOne(w.loops[l], w'.loops[l], t);
    hide Wanted, IsDuty;
    forall k, u | 0 <= k < |w'.loops| && IsDuty(u)
      ensures Queued(w'.loops[k], u) + (if duty' == Owes(k, u) then 1 else 0) == Wanted(w'.conns, k, u)
    {
      assert Queued(w.loops[k], u) + (if duty == Owes(k, u) then 1 else 0) == Wanted(w.conns, k, u);
      hide Queued;
    }
  }

  lemma PostedOne(p: Loop, p': Loop, t: Task)
    requires p' == p.(queue := p.queue + [t])
    ensures forall u :: Queued(p', u) == Queued(p, u) + if u == t then 1 else 0
  {
    assert p'.batch + p'.queue == p.batch + p.queue + [t];
  }

  lemma PostKeepsLate(w: World, l: nat, t: Task)
    requires w.World? && LateInv(w) && l < |w.loops|
    requires IsLate(t) ==> LateOk(w.conns, t) && w.conns[t.c].loop == l
    ensures LateInv(Post(w, l, t))
  {
    hide LateOk;
  }

  /** What is posted is what was due, or a functor that is no duty. */
  lemma PostKeeps(w: World, l: nat, t: Task, duty: Duty)
    requires Inv(w, duty) && l < |w.loops| && (duty == Owes(l, t) || !IsDuty(t))
    requires IsLate(t) ==> LateOk(w.conns, t) && w.conns[t.c].loop == l
    ensures Inv(Post(w, l, t), if IsDuty(t) then NoDuty else duty)
  {
    PostKeepsRest(w, l, t, duty);
    PostKeepsQueues(w, l, t, duty);
    PostKeepsLate(w, l, t);
    hide Placed, ConnsInv, SlotsInv, OwnersInv, FdInv, RegistryInv, QueueInv, LateInv, PcsInv, LateOk;
  }

  lemma PostKeepsUser(w: World, l: nat, duty: Duty)
    requires Inv(w, duty) && l < |w.loops|
    ensures Inv(Post(w, l, UserTask), duty)
  {
    hide Inv;
    PostKeeps(w, l, UserTask, duty);
  }

  lemma PostDue(w: World, l: nat, t: Task)
    requires Inv(w, Owes(l, t)) && l < |w.loops| && IsDuty(t)
    ensures Inv(Post(w, l, t), NoDuty)
  {
    hide Inv;
    PostKeeps(w, l, t, Owes(l, t));
  }

  function Taken(w: World, l: nat): World
    requires w.World? && l < |w.loops| && w.loops[l].batch != []
  {
    WithLoop(w, l, w.loops[l].(batch := w.loops[l].batch[1..]))
  }

  lemma TakeKeepsQueues(w: World, l: nat)
    requires w.World? && QueueInv(w, NoDuty) && l < |w.loops| && w.loops[l].batch != []
    ensures var t := w.loops[l].batch[0]; QueueInv(Taken(w, l), if IsDuty(t) then Owes(l, t) else NoDuty)
  {
    var t, w' := w.loops[l].batch[0], Taken(w, l);
    var duty' := if IsDuty(t) then Owes(l, t) else NoDuty;
    TakenOne(w.loops[l], w'.loops[l]);
    hide Wanted, IsDuty;
    forall k, u | 0 <= k < |w'.loops| && IsDuty(u)
      ensures Queued(w'.loops[k], u) + (if duty' == Owes(k, u) then 1 else 0) == Wanted(w'.conns, k, u)
    {
      assert Queued(w.loops[k], u) + 0 == Wanted(w.conns, k, u);
      hide Queued;
    }
  }

  lemma TakenOne(p: Loop, p': Loop)
    requires p.batch != [] && p' == p.(batch := p.batch[1..])
    ensures forall u :: Queued(p, u) == Queued(p', u) + if u == p.batch[0] then 1 else 0
  {
    assert p.batch + p.queue == [p.batch[0]] + (p'.batch + p'.queue);
  }

  lemma TakeKeepsRest(w: World, l: nat)
    requires Inv(w, NoDuty) && l < |w.loops| && w.loops[l].pc.Executing? && w.loops[l].batch != []
    ensures var w' := Taken(w, l);
            Placed(w') && ConnsInv(w'.conns) && SlotsInv(w') && OwnersInv(w') && FdInv(w'.conns)
            && RegistryInv(w') && PcsInv(w')
  {
    hide ConnInv, SlotInv, OwnerInv, RestInv, QueueInv, LateInv;
  }

  lemma TakeKeepsLate(w: World, l: nat)
    requires w.World? && LateInv(w) && l < |w.loops| && w.loops[l].batch != []
    ensures LateInv(Taken(w, l))
    ensures var t := w.loops[l].batch[0]; IsLate(t) ==> LateOk(w.conns, t) && w.conns[t.c].loop == l
  {
    assert LateIn(w.conns, l, w.loops[l].batch);
    hide LateOk;
  }

  /** The first functor of the batch starts to run. */
  lemma TakeKeeps(w: World, l: nat)
    requires Inv(w, NoDuty) && l < |w.loops| && w.loops[l].pc.Executing? && w.loops[l].batch != []
    ensures var t := w.loops[l].batch[0];
            && Inv(Taken(w, l), if IsDuty(t) then Owes(l, t) else NoDuty)
            && (IsLate(t) ==> LateOk(w.conns, t) && w.conns[t.c].loop == l)
  {
    TakeKeepsQueues(w, l);
    TakeKeepsRest(w, l);
    TakeKeepsLate(w, l);
    hide Placed, ConnsInv, SlotsInv, OwnersInv, FdInv, RegistryInv, QueueInv, LateInv, PcsInv, LateOk;
  }

  // ---------------------------------------------------------------- one connection moves on

  /** What a handler may do to connection `c` and to its loop's table. */
  ghost predicate MovesOn(was: Conn, t0: Table<nat>, c: nat, conn: Conn, t: Table<nat>) {
    && !was.freed && !conn.freed && ConnInv(conn) && conn.loop == was.loop && conn.fd == was.fd
    && (was.foreign ==> conn.foreign && (was.state != kConnected ==> conn.state != kConnected))
    && SlotInv(conn, t, c)
    && (conn.fd in t ==> t[conn.fd].owner == c && Registered(PhaseOf(conn)))
    && (forall fd :: fd != conn.fd && fd in t ==> fd in t0 && t[fd] == t0[fd])
    && (forall fd :: fd != conn.fd && fd in t0 ==> fd in t)
  }

  /** What it may do to a dispatch: a registered connection stays so, is live if and only if it
      was, and enables writing only while it is live. */
  predicate Undisturbing(was: Conn, conn: Conn) {
    Registered(PhaseOf(was)) ==>
      && Registered(PhaseOf(conn)) && (PhaseOf(conn) == Live <==> PhaseOf(was) == Live)
      && (PhaseOf(conn) == Live || !IsWriting(conn) || IsWriting(was))
  }

  /** What becomes of the duty `duty` when the connection goes from phase to phase. */
  predicate DutyMoves(was: Conn, conn: Conn, c: nat, duty: Duty, duty': Duty) {
    if DutyOf(conn, c) == DutyOf(was, c) then duty' == duty
    else duty == DutyOf(was, c) && duty' == DutyOf(conn, c)
  }

  predicate NameMoves(w: World, was: Conn, conn: Conn, c: nat, registry: map<string, nat>)
    requires w.World?
  {
    if Named(PhaseOf(conn)) == Named(PhaseOf(was)) then registry == w.registry
    else !Named(PhaseOf(conn)) && registry == Erased(w.registry, w.server, c)
  }

  /** The world after a handler of connection `c`. */
  function Moved(w: World, c: nat, conn: Conn, t: Table<nat>, registry: map<string, nat>): (r: World)
    requires w.World? && c < |w.conns| && conn.loop < |w.loops|
    ensures r.World? && |r.loops| == |w.loops|
  {
    w.(conns := w.conns[c := conn], registry := registry,
       loops := w.loops[conn.loop := w.loops[conn.loop].(table := t)])
  }

  lemma MoveKeepsConns(w: World, c: nat, conn: Conn)
    requires w.World? && Placed(w) && ConnsInv(w.conns) && FdInv(w.conns) && c < |w.conns|
    requires ConnInv(conn) && conn.fd == w.conns[c].fd && !w.conns[c].freed
    ensures ConnsInv(w.conns[c := conn]) && FdInv(w.conns[c := conn])
  {
    hide ConnInv;
  }

  lemma MoveKeepsSlots(w: World, c: nat, conn: Conn, t: Table<nat>)
    requires w.World? && Placed(w) && ConnsInv(w.conns) && SlotsInv(w) && FdInv(w.conns) && c < |w.conns|
    requires conn.loop == w.conns[c].loop && MovesOn(w.conns[c], w.loops[conn.loop].table, c, conn, t)
    ensures Placed(Moved(w, c, conn, t, w.registry)) && SlotsInv(Moved(w, c, conn, t, w.registry))
  {
    var w', l := Moved(w, c, conn, t, w.registry), conn.loop;
    forall d | 0 <= d < |w'.conns|
      ensures SlotInv(w'.conns[d], w'.loops[w'.conns[d].loop].table, d)
    {
      if d != c {
        OtherSlot(w.conns[d], w.conns[c], w.loops[l].table, d, c, conn, t) by {
          assert SlotInv(w.conns[d], w.loops[w.conns[d].loop].table, d) && ConnInv(w.conns[d]);
          hide SlotInv, ConnInv;
        }
      }
      hide SlotInv, ConnInv;
    }
  }

  /** The slot of another connection of the same loop. */
  lemma OtherSlot(other: Conn, was: Conn, t0: Table<nat>, d: nat, c: nat, conn: Conn, t: Table<nat>)
    requires MovesOn(was, t0, c, conn, t) && d != c && ConnInv(other)
    requires other.loop == conn.loop ==> SlotInv(other, t0, d)
    requires other.freed || other.fd != conn.fd
    ensures other.loop == conn.loop ==> SlotInv(other, t, d)
  {
    hide StreamInv;
  }

  lemma MoveKeepsOwners(w: World, c: nat, conn: Conn, t: Table<nat>)
    requires w.World? && OwnersInv(w) && c < |w.conns| && conn.loop == w.conns[c].loop < |w.loops|
    requires MovesOn(w.conns[c], w.loops[conn.loop].table, c, conn, t)
    ensures OwnersInv(Moved(w, c, conn, t, w.registry))
  {
    var w', l := Moved(w, c, conn, t, w.registry), conn.loop;
    forall k, fd | 0 <= k < |w'.loops| && fd in w'.loops[k].table
      ensures OwnerInv(w'.conns, k, fd, w'.loops[k].table[fd].owner)
    {
      hide ConnInv, SlotInv;
      if k != l || fd != conn.fd {
        assert OwnerInv(w.conns, k, fd, w.loops[k].table[fd].owner);
      }
    }
  }

  lemma WantedAt(conns: seq<Conn>, c: nat, conn: Conn, k: nat, u: Task)
    requires c < |conns| && IsDuty(u)
    ensures Wanted(conns[c := conn], k, u) ==
            if u.c == c then (if DutyOf(conn, c) == Owes(k, u) then 1 else 0) else Wanted(conns, k, u)
    ensures u.c == c ==> Wanted(conns, k, u) == if DutyOf(conns[c], c) == Owes(k, u) then 1 else 0
    ensures u.c != c ==> DutyOf(conn, c) != Owes(k, u) && DutyOf(conns[c], c) != Owes(k, u)
  {
  }

  /** The queues still hold what is waited for: the functor that ran was the old duty, and the
      new duty is still to be posted. */
  lemma MoveKeepsQueues(w: World, c: nat, conn: Conn, t: Table<nat>, duty: Duty, duty': Duty)
    requires w.World? && QueueInv(w, duty) && c < |w.conns| && conn.loop < |w.loops|
    requires DutyMoves(w.conns[c], conn, c, duty, duty')
    ensures QueueInv(Moved(w, c, conn, t, w.registry), duty')
  {
    var w' := Moved(w, c, conn, t, w.registry);
    hide Wanted, DutyOf;
    forall k, u | 0 <= k < |w'.loops| && IsDuty(u)
      ensures Queued(w'.loops[k], u) + (if duty' == Owes(k, u) then 1 else 0) == Wanted(w'.conns, k, u)
    {
      assert Queued(w.loops[k], u) + (if duty == Owes(k, u) then 1 else 0) == Wanted(w.conns, k, u);
      assert Queued(w'.loops[k], u) == Queued(w.loops[k], u);
      WantedAt(w.conns, c, conn, k, u);
      hide Queued;
    }
  }

  lemma MoveKeepsLate(w: World, c: nat, conn: Conn, t: Table<nat>)
    requires w.World? && LateInv(w) && c < |w.conns| && conn.loop == w.conns[c].loop < |w.loops|
    requires MovesOn(w.conns[c], w.loops[conn.loop].table, c, conn, t)
    ensures LateInv(Moved(w, c, conn, t, w.registry))
  {
    var w' := Moved(w, c, conn, t, w.registry);
    hide ConnInv, SlotInv;
    assert forall u :: LateOk(w.conns, u) ==> LateOk(w'.conns, u) && w'.conns[u.c].loop == w.conns[u.c].loop;
    hide LateOk, MovesOn;
    forall l | 0 <= l < |w'.loops|
      ensures LateIn(w'.conns, l, w'.loops[l].batch) && LateIn(w'.conns, l, w'.loops[l].queue)
    {
      assert LateIn(w.conns, l, w.loops[l].batch) && LateIn(w.conns, l, w.loops[l].queue);
    }
  }

  lemma MoveKeepsRegistry(w: World, c: nat, conn: Conn, t: Table<nat>, registry: map<string, nat>)
    requires w.World? && RegistryInv(w) && c < |w.conns| && conn.loop < |w.loops|
    requires NameMoves(w, w.conns[c], conn, c, registry)
    ensures RegistryInv(Moved(w, c, conn, t, registry))
  {
    var w' := Moved(w, c, conn, t, registry);
    forall d | 0 <= d < |w'.conns|
      ensures ConnName(w'.server, d) in w'.registry <==> Named(PhaseOf(w'.conns[d]))
      ensures ConnName(w'.server, d) in w'.registry ==> w'.registry[ConnName(w'.server, d)] == d
    {
      if ConnName(w.server, d) == ConnName(w.server, c) {
        NamesDistinct(w.server, d, c);
      }
      hide ConnName, Named, PhaseOf;
    }
  }

  /** Only the connection's own loop may still dispatch it. */
  lemma MoveKeepsPcs(w: World, c: nat, conn: Conn, t: Table<nat>)
    requires w.World? && PcsInv(w) && c < |w.conns| && conn.loop == w.conns[c].loop < |w.loops|
    requires PcInv(w.conns[c := conn], conn.loop, w.loops[conn.loop])
    ensures PcsInv(Moved(w, c, conn, t, w.registry))
  {
    var w' := Moved(w, c, conn, t, w.registry);
    forall k | 0 <= k < |w'.loops|
      ensures PcInv(w'.conns, k, w'.loops[k])
    {
      assert PcInv(w.conns, k, w.loops[k]);
      if k != conn.loop && w.loops[k].pc.Dispatching? {
        OtherRest(w.conns, c, conn, k, w.loops[k].pc.rest, w.loops[k].pc.stage);
      }
      hide RestInv;
    }
  }

  lemma OtherRest(conns: seq<Conn>, c: nat, conn: Conn, k: nat, rest: seq<Active>, stage: Stage)
    requires RestInv(conns, k, rest, stage) && c < |conns| && conns[c].loop != k
    ensures RestInv(conns[c := conn], k, rest, stage)
  {
    forall j | 0 <= j < |rest|
      ensures EntryInv(conns[c := conn], k, rest[j], if j == 0 then stage else AtClose)
    {
      assert EntryInv(conns, k, rest[j], if j == 0 then stage else AtClose);
    }
  }

  lemma MoveKeeps(w: World, c: nat, conn: Conn, t: Table<nat>, registry: map<string, nat>, duty: Duty, duty': Duty)
    requires Inv(w, duty) && c < |w.conns| && conn.loop == w.conns[c].loop < |w.loops|
    requires MovesOn(w.conns[c], w.loops[conn.loop].table, c, conn, t)
    requires PcInv(w.conns[c := conn], conn.loop, w.loops[conn.loop])
    requires DutyMoves(w.conns[c], conn, c, duty, duty') && NameMoves(w, w.conns[c], conn, c, registry)
    ensures Inv(Moved(w, c, conn, t, registry), duty')
  {
    hide ConnInv, SlotInv, PcInv, DutyMoves, NameMoves;
    MoveKeepsConns(w, c, conn);
    MoveKeepsSlots(w, c, conn, t);
    MoveKeepsOwners(w, c, conn, t);
    MoveKeepsQueues(w, c, conn, t, duty, duty');
    MoveKeepsLate(w, c, conn, t);
    MoveKeepsRegistry(w, c, conn, t, registry);
    MoveKeepsPcs(w, c, conn, t);
    Renamed(Moved(w, c, conn, t, w.registry), registry, duty');
  }

  /** Only one part of the invariant looks at the map. */
  lemma Renamed(w: World, registry: map<string, nat>, duty: Duty)
    requires w.World? && Placed(w) && ConnsInv(w.conns) && SlotsInv(w) && OwnersInv(w) && FdInv(w.conns)
    requires QueueInv(w, duty) && LateInv(w) && PcsInv(w) && RegistryInv(w.(registry := registry))
    ensures Inv(w.(registry := registry), duty)
  {
    hide ConnInv, SlotInv, OwnerInv, PcInv, RegistryInv, FdInv, LateIn, LateOk;
  }

  // ---------------------------------------------------------------- dispatches

  lemma EntryUnmoved(conns: seq<Conn>, c: nat, conn: Conn, l: nat, e: Active, stage: Stage)
    requires EntryInv(conns, l, e, stage) && c < |conns| && conn.loop == conns[c].loop
    requires Undisturbing(conns[c], conn)
    ensures EntryInv(conns[c := conn], l, e, stage)
  {
  }

  lemma PcUnmoved(conns: seq<Conn>, c: nat, conn: Conn, l: nat, p: Loop)
    requires PcInv(conns, l, p) && c < |conns| && conn.loop == conns[c].loop
    requires p.pc.Executing? || Undisturbing(conns[c], conn)
    ensures PcInv(conns[c := conn], l, p)
  {
    hide EntryInv, Undisturbing;
    if p.pc.Dispatching? {
      var rest := p.pc.rest;
      forall j | 0 <= j < |rest|
        ensures EntryInv(conns[c := conn], l, rest[j], if j == 0 then p.pc.stage else AtClose)
      {
        EntryUnmoved(conns, c, conn, l, rest[j], if j == 0 then p.pc.stage else AtClose);
      }
    }
  }

  /** The handlers that leave the map alone. */
  lemma HandlerKeeps(w: World, l: nat, c: nat, e: Effect<nat>, duty: Duty, duty': Duty)
    requires Inv(w, duty) && c < |w.conns| && w.conns[c].loop == l < |w.loops|
    requires MovesOn(w.conns[c], w.loops[l].table, c, e.conn, e.table)
    requires PcInv(w.conns[c := e.conn], l, w.loops[l])
    requires Named(PhaseOf(e.conn)) == Named(PhaseOf(w.conns[c])) && DutyMoves(w.conns[c], e.conn, c, duty, duty')
    ensures Inv(After(w, l, c, e), duty')
  {
    assert w.World? && e.conn.loop == l by { hide ConnInv, SlotInv, PcInv; }
    hide Inv, MovesOn, PcInv, DutyMoves;
    MoveKeeps(w, c, e.conn, e.table, w.registry, duty, duty');
    var w' := Moved(w, c, e.conn, e.table, w.registry);
    assert w' == WithLoop(WithConn(w, c, e.conn), l, w.loops[l].(table := e.table));
    if e.queued {
      PostKeepsUser(w', l, duty');
    }
  }

  // ---------------------------------------------------------------- the handlers, by themselves

  lemma EstablishMoves(conn: Conn, t: Table<nat>, c: nat)
    requires ConnInv(conn) && SlotInv(conn, t, c) && PhaseOf(conn) == Establishing
    ensures UpdateOk(t, conn.fd, conn.indexed)
    ensures var e := Established(conn, t, c); MovesOn(conn, t, c, e.conn, e.table) && PhaseOf(e.conn) == Live
  {
    EstablishKeepsStream(conn, t, c) by { hide StreamInv; }
    hide StreamInv;
  }

  lemma EraseMoves(conn: Conn, t: Table<nat>, c: nat)
    requires ConnInv(conn) && SlotInv(conn, t, c) && PhaseOf(conn) == AwaitingErase
    ensures var erased := ErasedOnce(conn);
            MovesOn(conn, t, c, erased, t) && PhaseOf(erased) == AwaitingDestroy && Undisturbing(conn, erased)
  {
    RunsKeepStream(conn, ErasedOnce(conn).runs);
    hide StreamInv;
  }

  /** `connectionDestryed` meets its assertions exactly if no late functor has left bytes. */
  lemma DestroyMoves(conn: Conn, t: Table<nat>, c: nat)
    requires ConnInv(conn) && SlotInv(conn, t, c) && PhaseOf(conn) == AwaitingDestroy
    ensures UpdateOk(t, conn.fd, conn.indexed) && (DestroyOk(conn, t, c) <==> !IsWriting(conn))
    ensures var e := Destroyed(conn, t, c);
            !IsWriting(conn) ==> MovesOn(conn, t, c, e.conn, e.table) && PhaseOf(e.conn) == Gone
  {
    RunsKeepStream(conn, conn.runs.(destroyed := conn.runs.destroyed + 1));
    hide StreamInv;
  }

  lemma CloseMoves(conn: Conn, t: Table<nat>, c: nat)
    requires ConnInv(conn) && SlotInv(conn, t, c) && PhaseOf(conn) == Live
    ensures UpdateOk(t, conn.fd, conn.indexed)
    ensures var e := Closed(conn, t, c);
            MovesOn(conn, t, c, e.conn, e.table) && PhaseOf(e.conn) == AwaitingErase && !IsWriting(e.conn)
  {
    CloseKeepsStream(conn, t, c) by { hide SlotInv; }
    hide StreamInv;
  }

  lemma SendMoves(conn: Conn, t: Table<nat>, c: nat, msg: string, n: nat, notify: bool)
    requires ConnInv(conn) && SlotInv(conn, t, c) && !conn.freed && n <= |msg| && SendOk(conn, t, msg, n)
    requires conn.state == kConnected || conn.foreign
    requires PhaseOf(conn) == Gone ==> conn.fd !in t
    ensures var e := Sent(conn, t, c, msg, n, notify);
            MovesOn(conn, t, c, e.conn, e.table) && PhaseOf(e.conn) == PhaseOf(conn)
  {
    SendKeepsStream(conn, t, c, msg, n, notify) by { hide SlotInv; }
    SentRest(conn, t, c, msg, n, notify);
    SentTable(conn, t, c, msg, n, notify);
    hide StreamInv, Sent;
    var e := Sent(conn, t, c, msg, n, notify);
    if e.table == t && e.conn.events == conn.events && e.conn.indexed == conn.indexed {
      QuietMoves(conn, t, c, e.conn);
    } else {
      InterestMoves(conn, t, c, e.conn);
    }
  }

  /** A connection that asks for POLLOUT from now on. */
  lemma InterestMoves(was: Conn, t: Table<nat>, c: nat, conn: Conn)
    requires ConnInv(was) && SlotInv(was, t, c) && !was.freed && StreamInv(conn)
    requires Registered(PhaseOf(was)) && !IsWriting(was)
    requires conn.events == was.events + WRITE_EVENT && conn.indexed
    requires (conn.loop, conn.fd, conn.state) == (was.loop, was.fd, was.state)
    requires (conn.runs, conn.foreign, conn.freed) == (was.runs, was.foreign, was.freed)
    ensures UpdateOk(t, was.fd, was.indexed)
    ensures MovesOn(was, t, c, conn, Update(t, c, was.fd, conn.events, was.indexed))
    ensures PhaseOf(conn) == PhaseOf(was)
  {
    hide StreamInv;
  }

  lemma SentTable(conn: Conn, t: Table<nat>, c: nat, msg: string, n: nat, notify: bool)
    requires n <= |msg| && SendOk(conn, t, msg, n)
    ensures var e := Sent(conn, t, c, msg, n, notify);
            if IsWriting(conn) || !LeavesBytes(conn, msg, n) then
              e.table == t && e.conn.events == conn.events && e.conn.indexed == conn.indexed
            else
              && e.conn.events == conn.events + WRITE_EVENT && e.conn.indexed
              && e.table == Update(t, c, conn.fd, conn.events + WRITE_EVENT, conn.indexed)
  {
  }

  /** `handleWrite` changes the output path only, and at most stops asking for POLLOUT. */
  lemma DrainedShape(conn: Conn, t: Table<nat>, n: nat, notify: bool)
    requires n <= |conn.outbuf|
    ensures var e := Drained(conn, t, n, notify);
            && e.table == t && (e.conn.events == conn.events || e.conn.events == conn.events - WRITE_EVENT)
            && (e.conn.loop, e.conn.fd, e.conn.state, e.conn.indexed) == (conn.loop, conn.fd, conn.state, conn.indexed)
            && (e.conn.runs, e.conn.foreign, e.conn.freed) == (conn.runs, conn.foreign, conn.freed)
            && e.conn.accepted == conn.accepted
  {
  }

  lemma DrainMoves(conn: Conn, t: Table<nat>, c: nat, n: nat, notify: bool)
    requires ConnInv(conn) && SlotInv(conn, t, c) && Registered(PhaseOf(conn)) && n <= |conn.outbuf|
    requires PhaseOf(conn) == Live || !IsWriting(conn)
    ensures var e := Drained(conn, t, n, notify);
            MovesOn(conn, t, c, e.conn, e.table) && PhaseOf(e.conn) == PhaseOf(conn) && Undisturbing(conn, e.conn)
  {
    DrainKeepsStream(conn, t, n, notify) by { hide SlotInv; }
    DrainedShape(conn, t, n, notify);
    hide StreamInv;
    if IsWriting(conn) {
      hide Drained;
      LiveMoves(conn, t, c, Drained(conn, t, n, notify).conn);
    }
  }

  /** A live connection that stops to ask for POLLOUT, or does not. */
  lemma LiveMoves(was: Conn, t: Table<nat>, c: nat, conn: Conn)
    requires ConnInv(was) && SlotInv(was, t, c) && PhaseOf(was) == Live && StreamInv(conn)
    requires conn.events == was.events || conn.events == was.events - WRITE_EVENT
    requires (conn.loop, conn.fd, conn.state, conn.indexed) == (was.loop, was.fd, was.state, was.indexed)
    requires (conn.runs, conn.foreign, conn.freed) == (was.runs, was.foreign, was.freed)
    ensures MovesOn(was, t, c, conn, t) && PhaseOf(conn) == Live && Undisturbing(was, conn)
  {
    hide StreamInv;
    assert POLLOUT !in READ_EVENT;
  }

  /** The connection changes, but neither its channel nor its phase. */
  predicate Quiet(was: Conn, conn: Conn) {
    && (conn.loop, conn.fd, conn.events, conn.indexed, conn.runs) ==
       (was.loop, was.fd, was.events, was.indexed, was.runs)
    && conn.freed == was.freed && (was.foreign ==> conn.foreign)
    && (conn.state == was.state || (was.state == kConnected && conn.state == kDisconnecting))
  }

  lemma QuietMoves(was: Conn, t: Table<nat>, c: nat, conn: Conn)
    requires ConnInv(was) && SlotInv(was, t, c) && !was.freed && Quiet(was, conn) && StreamInv(conn)
    requires PhaseOf(was) == Gone ==> was.fd !in t
    requires conn.foreign && !was.foreign ==> was.state == kConnected
    ensures MovesOn(was, t, c, conn, t) && PhaseOf(conn) == PhaseOf(was) && Undisturbing(was, conn)
  {
    hide StreamInv;
  }

  // ---------------------------------------------------------------- the handlers, in the world

  lemma EstablishKeeps(w: World, l: nat, c: nat)
    requires Inv(w, Owes(l, Establish(c))) && l < |w.loops|
    ensures Inv(RunEstablish(w, l, c), NoDuty)
  {
    RunningIsDue(w, l, Establish(c));
    ConnFacts(w, c, Owes(l, Establish(c)));
    PcFacts(w, l, Owes(l, Establish(c)));
    assert w.World?;
    hide Inv, ConnInv, SlotInv, PcInv, MovesOn;
    var conn, t := w.conns[c], w.loops[l].table;
    EstablishMoves(conn, t, c);
    var e := Established(conn, t, c);
    PcUnmoved(w.conns, c, e.conn, l, w.loops[l]);
    HandlerKeeps(w, l, c, e, Owes(l, Establish(c)), NoDuty);
  }

  /** A handler that touches no table. */
  lemma MovedBesideTable(w: World, c: nat, conn: Conn)
    requires w.World? && c < |w.conns| && conn.loop < |w.loops|
    ensures Moved(w, c, conn, w.loops[conn.loop].table, w.registry) == WithConn(w, c, conn)
  {
    var p := w.loops[conn.loop];
    assert p.(table := p.table) == p;
    assert w.loops[conn.loop := p] == w.loops;
  }

  function ErasedOnce(conn: Conn): Conn {
    conn.(runs := conn.runs.(erased := conn.runs.erased + 1))
  }

  /** The world between the erase and the post. */
  function Unregistered(w: World, c: nat): (r: World)
    requires w.World? && c < |w.conns|
    ensures r.World? && r.loops == w.loops
  {
    w.(conns := w.conns[c := ErasedOnce(w.conns[c])], registry := Erased(w.registry, w.server, c))
  }

  lemma RunRemoveIs(w: World, c: nat)
    requires w.World? && c < |w.conns| && w.conns[c].loop < |w.loops| && ConnName(w.server, c) in w.registry
    ensures RunRemove(w, 0, c) == Post(Unregistered(w, c), w.conns[c].loop, Destroy(c))
  {
  }

  lemma EraseKeeps(w: World, c: nat)
    requires Inv(w, Owes(0, RemoveInLoop(c)))
    ensures w.World? && c < |w.conns| && w.conns[c].loop < |w.loops| && ConnName(w.server, c) in w.registry
    ensures Inv(Unregistered(w, c), Owes(w.conns[c].loop, Destroy(c)))
  {
    var duty := Owes(0, RemoveInLoop(c));
    RunningIsDue(w, 0, RemoveInLoop(c)) by { InvIsWorld(w, duty); }
    ConnFacts(w, c, duty);
    InvIsWorld(w, duty);
    var conn, registry := w.conns[c], Erased(w.registry, w.server, c);
    var l, t := conn.loop, w.loops[conn.loop].table;
    PcFacts(w, l, duty);
    hide Inv, ConnInv, SlotInv, PcInv, MovesOn;
    EraseMoves(conn, t, c);
    PcUnmoved(w.conns, c, ErasedOnce(conn), l, w.loops[l]);
    MoveKeeps(w, c, ErasedOnce(conn), t, registry, duty, Owes(l, Destroy(c)));
    MovedBesideTable(w, c, ErasedOnce(conn));
  }

  lemma RemoveKeeps(w: World, c: nat)
    requires Inv(w, Owes(0, RemoveInLoop(c)))
    ensures Inv(RunRemove(w, 0, c), NoDuty)
  {
    InvIsWorld(w, Owes(0, RemoveInLoop(c)));
    hide Inv, ConnName;
    EraseKeeps(w, c);
    RunRemoveIs(w, c);
    hide Unregistered, RunRemove, Post;
    PostDue(Unregistered(w, c), w.conns[c].loop, Destroy(c));
  }

  lemma DestroyKeeps(w: World, l: nat, c: nat)
    requires Inv(w, Owes(l, Destroy(c))) && l < |w.loops| && w.loops[l].pc.Executing?
    ensures c < |w.conns|
    ensures if IsWriting(w.conns[c]) then RunDestroy(w, l, c) == Crashed else Inv(RunDestroy(w, l, c), NoDuty)
  {
    RunningIsDue(w, l, Destroy(c));
    ConnFacts(w, c, Owes(l, Destroy(c)));
    PcFacts(w, l, Owes(l, Destroy(c)));
    assert w.World?;
    hide Inv, ConnInv, SlotInv, PcInv, MovesOn;
    var conn, t := w.conns[c], w.loops[l].table;
    DestroyMoves(conn, t, c);
    if !IsWriting(conn) {
      var e := Destroyed(conn, t, c);
      PcUnmoved(w.conns, c, e.conn, l, w.loops[l]);
      HandlerKeeps(w, l, c, e, Owes(l, Destroy(c)), NoDuty);
    }
  }

  /** The head of the dispatch may be closed once its write branch is all that is left. */
  lemma PcHeadCloses(conns: seq<Conn>, c: nat, conn: Conn, l: nat, p: Loop)
    requires PcInv(conns, l, p) && c < |conns| && conn.loop == conns[c].loop
    requires Registered(PhaseOf(conn)) && !IsWriting(conn)
    requires p.pc.Dispatching? && p.pc.rest != [] && p.pc.rest[0].conn == c && p.pc.stage == AtWrite
    ensures PcInv(conns[c := conn], l, p)
  {
    var rest := p.pc.rest;
    forall j | 0 <= j < |rest|
      ensures EntryInv(conns[c := conn], l, rest[j], if j == 0 then AtWrite else AtClose)
    {
      assert EntryInv(conns, l, rest[j], if j == 0 then AtWrite else AtClose);
    }
  }

  predicate HeadAtWrite(p: Loop, c: nat) {
    p.pc.Dispatching? && p.pc.rest != [] && p.pc.rest[0].conn == c && p.pc.stage == AtWrite
  }

  lemma CloseKeeps(w: World, l: nat, c: nat)
    requires Inv(w, NoDuty) && l < |w.loops| && c < |w.conns| && w.conns[c].loop == l && PhaseOf(w.conns[c]) == Live
    requires HeadAtWrite(w.loops[l], c)
    ensures Inv(RunClose(w, l, c), NoDuty)
  {
    ConnFacts(w, c, NoDuty);
    PcFacts(w, l, NoDuty);
    assert w.World? && CloseOk(w.conns[c]) && 0 < |w.loops|;
    hide Inv, ConnInv, SlotInv, PcInv, MovesOn;
    var conn, t := w.conns[c], w.loops[l].table;
    CloseMoves(conn, t, c);
    var e := Closed(conn, t, c);
    PcHeadCloses(w.conns, c, e.conn, l, w.loops[l]);
    HandlerKeeps(w, l, c, e, NoDuty, Owes(0, RemoveInLoop(c)));
    var w' := After(w, l, c, e);
    if l == 0 {
      RemoveKeeps(w', c);
    } else {
      PostDue(w', 0, RemoveInLoop(c));
    }
  }

  lemma ClosedPhase(w: World, l: nat, c: nat)
    requires w.World? && c < |w.conns| && PhaseOf(w.conns[c]) == Live && RunClose(w, l, c).World?
    ensures |RunClose(w, l, c).conns| == |w.conns| && PhaseOf(RunClose(w, l, c).conns[c]) != Live
  {
  }

  /** The callbacks do not look at the stage of the dispatch. */
  lemma CloseKeepsStage(w: World, l: nat, c: nat, stage: Stage)
    requires w.World? && l < |w.loops| && w.loops[l].pc.Dispatching? && RunClose(w, l, c).World?
    ensures |RunClose(w, l, c).loops| == |w.loops| && RunClose(w, l, c).loops[l].pc == w.loops[l].pc
    ensures RunClose(AtStage(w, l, stage), l, c) == AtStage(RunClose(w, l, c), l, stage)
  {
    var a, b := RunClose(AtStage(w, l, stage), l, c), AtStage(RunClose(w, l, c), l, stage);
    assert a.loops == b.loops;
  }

  /** `sendInLoop`, called by the loop itself or as a functor. It fails an assertion exactly if
      the connection is gone and bytes are left. */
  lemma SendKeeps(w: World, l: nat, c: nat, msg: string, n: nat)
    requires Inv(w, NoDuty) && l < |w.loops| && c < |w.conns| && w.conns[c].loop == l && n <= |msg|
    requires w.conns[c].state == kConnected || (w.conns[c].foreign && !w.conns[c].freed && w.loops[l].pc.Executing?)
    ensures if PhaseOf(w.conns[c]) == Gone && LeavesBytes(w.conns[c], msg, n) then RunSend(w, l, c, msg, n) == Crashed
            else Inv(RunSend(w, l, c, msg, n), NoDuty)
  {
    ConnFacts(w, c, NoDuty);
    PcFacts(w, l, NoDuty);
    var conn, t := w.conns[c], w.loops[l].table;
    if PhaseOf(conn) == Gone {
      GoneHasNoSlot(w, c, NoDuty);
    }
    assert w.World? && !conn.freed && PhaseOf(conn) != Establishing;
    assert conn.state == kConnected ==> PhaseOf(conn) == Live;
    assert PhaseOf(conn) == Gone ==> !IsWriting(conn) && conn.indexed;
    assert PhaseOf(conn) != Gone ==> UpdateOk(t, conn.fd, conn.indexed);
    hide Inv, ConnInv, SlotInv, PcInv, MovesOn;
    if SendOk(conn, t, msg, n) {
      SendMoves(conn, t, c, msg, n, w.notify);
      var e := Sent(conn, t, c, msg, n, w.notify);
      hide Sent;
      PcUnmoved(w.conns, c, e.conn, l, w.loops[l]);
      HandlerKeeps(w, l, c, e, NoDuty, NoDuty);
    }
  }

  lemma WriteKeeps(w: World, l: nat, c: nat, n: nat)
    requires Inv(w, NoDuty) && l < |w.loops| && c < |w.conns| && w.conns[c].loop == l && n <= |w.conns[c].outbuf|
    requires Registered(PhaseOf(w.conns[c])) && (PhaseOf(w.conns[c]) == Live || !IsWriting(w.conns[c]))
    ensures Inv(RunWrite(w, l, c, n), NoDuty)
  {
    ConnFacts(w, c, NoDuty);
    PcFacts(w, l, NoDuty);
    assert w.World?;
    hide Inv, ConnInv, SlotInv, PcInv, MovesOn;
    var conn, t := w.conns[c], w.loops[l].table;
    DrainMoves(conn, t, c, n, w.notify);
    var e := Drained(conn, t, n, w.notify);
    hide Drained;
    PcUnmoved(w.conns, c, e.conn, l, w.loops[l]);
    HandlerKeeps(w, l, c, e, NoDuty, NoDuty);
  }

  /** A change that no loop can see. */
  lemma QuietKeeps(w: World, c: nat, conn: Conn)
    requires Inv(w, NoDuty) && c < |w.conns| && !w.conns[c].freed && Quiet(w.conns[c], conn) && StreamInv(conn)
    requires conn.foreign && !w.conns[c].foreign ==> w.conns[c].state == kConnected
    ensures Inv(WithConn(w, c, conn), NoDuty)
  {
    ConnFacts(w, c, NoDuty);
    var l := w.conns[c].loop;
    PcFacts(w, l, NoDuty);
    var t := w.loops[l].table;
    if PhaseOf(w.conns[c]) == Gone {
      GoneHasNoSlot(w, c, NoDuty);
    }
    assert w.World?;
    hide Inv, ConnInv, SlotInv, PcInv, MovesOn, StreamInv;
    QuietMoves(w.conns[c], t, c, conn);
    PcUnmoved(w.conns, c, conn, l, w.loops[l]);
    HandlerKeeps(w, l, c, Effect(conn, t, false), NoDuty, NoDuty);
    assert w.loops[l := w.loops[l].(table := t)] == w.loops;
  }

  lemma HalfCloseKeeps(w: World, c: nat)
    requires Inv(w, NoDuty) && c < |w.conns|
    ensures Inv(WithConn(w, c, HalfClosed(w.conns[c])), NoDuty)
  {
    ConnFacts(w, c, NoDuty);
    var conn := w.conns[c];
    assert w.World? && StreamInv(conn) && (conn.freed ==> conn.state != kConnected);
    hide Inv, ConnInv, StreamInv;
    if conn.state == kConnected {
      HalfCloseKeepsStream(conn);
      QuietKeeps(w, c, HalfClosed(conn));
    } else {
      assert w.conns[c := conn] == w.conns;
    }
  }

  lemma LateShutdownKeeps(w: World, c: nat)
    requires Inv(w, NoDuty) && c < |w.conns| && LateOk(w.conns, ShutdownInLoop(c))
    ensures Inv(WithConn(w, c, HalfClosedInLoop(w.conns[c])), NoDuty)
  {
    ConnFacts(w, c, NoDuty);
    var conn := w.conns[c];
    assert StreamInv(conn) && (conn.state == kDisconnecting || conn.state == kDisconnected);
    hide Inv, ConnInv, StreamInv;
    LateShutdownKeepsStream(conn);
    QuietKeeps(w, c, HalfClosedInLoop(conn));
  }

  // ---------------------------------------------------------------- the steps

  /** A loop that only moves its program counter. */
  lemma PcKeeps(w: World, l: nat, p: Loop)
    requires Inv(w, NoDuty) && l < |w.loops|
    requires p.table == w.loops[l].table && p.batch + p.queue == w.loops[l].batch + w.loops[l].queue
    requires PcInv(w.conns, l, p)
    ensures Inv(WithLoop(w, l, p), NoDuty)
  {
    assert w.World?;
    PcKeepsQueues(w, l, p);
    PcKeepsLate(w, l, p);
    hide ConnInv, SlotInv, OwnerInv, PcInv, QueueInv, LateInv;
  }

  lemma PcKeepsQueues(w: World, l: nat, p: Loop)
    requires w.World? && QueueInv(w, NoDuty) && l < |w.loops|
    requires p.batch + p.queue == w.loops[l].batch + w.loops[l].queue
    ensures QueueInv(WithLoop(w, l, p), NoDuty)
  {
    var w' := WithLoop(w, l, p);
    hide Wanted;
    forall k, u | 0 <= k < |w'.loops| && IsDuty(u)
      ensures Queued(w'.loops[k], u) + 0 == Wanted(w'.conns, k, u)
    {
      assert Queued(w.loops[k], u) + 0 == Wanted(w.conns, k, u);
    }
  }

  lemma PcKeepsLate(w: World, l: nat, p: Loop)
    requires w.World? && LateInv(w) && l < |w.loops|
    requires p.batch + p.queue == w.loops[l].batch + w.loops[l].queue
    ensures LateInv(WithLoop(w, l, p))
  {
    var q := w.loops[l];
    assert LateIn(w.conns, l, q.batch) && LateIn(w.conns, l, q.queue);
    LateSplits(w.conns, l, q.batch, q.queue);
    LateSplits(w.conns, l, p.batch, p.queue);
    hide LateIn, LateOk;
  }

  lemma LateSplits(conns: seq<Conn>, l: nat, a: seq<Task>, b: seq<Task>)
    ensures LateIn(conns, l, a + b) <==> LateIn(conns, l, a) && LateIn(conns, l, b)
  {
    hide LateOk;
    var all := a + b;
    if LateIn(conns, l, all) {
      assert forall k :: 0 <= k < |a| ==> all[k] == a[k];
      assert forall k :: 0 <= k < |b| ==> all[|a| + k] == b[k];
    }
  }

  lemma PollKeeps(w: World, l: nat, ready: seq<Ready>)
    requires Inv(w, NoDuty) && l < |w.loops| && w.loops[l].pc.Polling? && AnswerOk(w.loops[l].table, ready)
    ensures Inv(Apply(w, PollReturns(l, ready)), NoDuty)
  {
    assert w.World?;
    PcFacts(w, l, NoDuty);
    var t := w.loops[l].table;
    var rest := ActiveOf(t, ready);
    forall k | 0 <= k < |rest|
      ensures EntryInv(w.conns, l, rest[k], AtClose) && w.conns[rest[k].conn].fd == ready[k].fd
    {
      var o := t[ready[k].fd].owner;
      OwnerFacts(w, l, ready[k].fd, NoDuty);
      ConnFacts(w, o, NoDuty);
      hide Inv, StreamInv;
    }
    hide Inv, EntryInv;
    PcKeeps(w, l, w.loops[l].(pc := Dispatching(rest, AtClose)));
  }

  /** A branch that does not close moves on to the next. */
  lemma StageKeeps(w: World, l: nat, stage: Stage)
    requires Inv(w, NoDuty) && w.World? && l < |w.loops| && w.loops[l].pc.Dispatching? && w.loops[l].pc.rest != []
    requires EntryInv(w.conns, l, w.loops[l].pc.rest[0], stage)
    ensures Inv(AtStage(w, l, stage), NoDuty)
  {
    PcFacts(w, l, NoDuty);
    var p := w.loops[l];
    hide Inv;
    assert forall j :: 0 < j < |p.pc.rest| ==> EntryInv(w.conns, l, p.pc.rest[j], AtClose);
    hide EntryInv;
    PcKeeps(w, l, p.(pc := p.pc.(stage := stage)));
  }

  lemma HeadFacts(w: World, l: nat)
    requires Inv(w, NoDuty) && w.World? && l < |w.loops| && w.loops[l].pc.Dispatching? && w.loops[l].pc.rest != []
    ensures EntryInv(w.conns, l, w.loops[l].pc.rest[0], w.loops[l].pc.stage)
    ensures forall j :: 0 < j < |w.loops[l].pc.rest| ==> EntryInv(w.conns, l, w.loops[l].pc.rest[j], AtClose)
  {
    PcFacts(w, l, NoDuty);
    hide Inv, EntryInv;
  }

  lemma ApplyBranches(w: World, l: nat, eof: bool, n: nat)
    requires w.World? && l < |w.loops| && w.loops[l].pc.Dispatching? && w.loops[l].pc.rest != []
    ensures var head := w.loops[l].pc.rest[0];
            var w1, w2, w3 := AtStage(w, l, AtRead), AtStage(w, l, AtWrite), NextChannel(w, l);
            && (At(w, l, AtClose) ==>
                  Apply(w, CloseBranch(l)) == if ClosesFirst(head.revents) then RunClose(w1, l, head.conn) else w1)
            && (At(w, l, AtRead) ==>
                  Apply(w, ReadBranch(l, eof)) == if Reads(head.revents) && eof then RunClose(w2, l, head.conn) else w2)
            && (At(w, l, AtWrite) && MayTake(w, l, n) ==>
                  Apply(w, WriteBranch(l, n)) == if POLLOUT in head.revents then RunWrite(w3, l, head.conn, n) else w3)
  {
  }

  /** The close branch closes the head, and the read branch is next. */
  lemma CloseThenRead(w: World, l: nat)
    requires Inv(w, NoDuty) && At(w, l, AtWrite) && ClosesFirst(w.loops[l].pc.rest[0].revents)
    requires var c := w.loops[l].pc.rest[0].conn; c < |w.conns| && PhaseOf(w.conns[c]) == Live
    ensures Inv(RunClose(AtStage(w, l, AtRead), l, w.loops[l].pc.rest[0].conn), NoDuty)
  {
    HeadFacts(w, l);
    hide Inv;
    var c := w.loops[l].pc.rest[0].conn;
    CloseKeeps(w, l, c);
    var w' := RunClose(w, l, c);
    InvIsWorld(w', NoDuty);
    CloseKeepsStage(w, l, c, AtRead);
    ClosedPhase(w, l, c);
    hide RunClose;
    HeadFacts(w', l);
    StageKeeps(w', l, AtRead);
  }

  lemma StageTwice(w: World, l: nat)
    requires w.World? && l < |w.loops| && w.loops[l].pc.Dispatching?
    ensures AtStage(AtStage(w, l, AtWrite), l, AtRead) == AtStage(w, l, AtRead)
  {
  }

  lemma CloseBranchKeeps(w: World, l: nat)
    requires Inv(w, NoDuty) && At(w, l, AtClose)
    ensures Inv(Apply(w, CloseBranch(l)), NoDuty)
  {
    hide Inv, Apply, RunClose;
    HeadFacts(w, l);
    ApplyBranches(w, l, false, 0);
    if ClosesFirst(w.loops[l].pc.rest[0].revents) {
      StageKeeps(w, l, AtWrite);
      StageTwice(w, l);
      CloseThenRead(AtStage(w, l, AtWrite), l);
    } else {
      StageKeeps(w, l, AtRead);
    }
  }

  /** The read branch closes a live connection, but not one that the close branch has closed. */
  lemma ReadBranchKeeps(w: World, l: nat, eof: bool)
    requires Inv(w, NoDuty) && At(w, l, AtRead)
    ensures var revents := w.loops[l].pc.rest[0].revents;
            if ClosesFirst(revents) && Reads(revents) && eof then Apply(w, ReadBranch(l, eof)) == Crashed
            else Inv(Apply(w, ReadBranch(l, eof)), NoDuty)
  {
    HeadFacts(w, l);
    var head := w.loops[l].pc.rest[0];
    ConnFacts(w, head.conn, NoDuty);
    assert PhaseOf(w.conns[head.conn]) != Live ==> w.conns[head.conn].state == kDisconnected;
    ApplyBranches(w, l, eof, 0);
    hide Inv, ConnInv, SlotInv, Apply;
    StageKeeps(w, l, AtWrite);
    if Reads(head.revents) && eof {
      if !ClosesFirst(head.revents) {
        hide RunClose;
        CloseKeeps(AtStage(w, l, AtWrite), l, head.conn);
      }
    }
  }

  lemma NextKeeps(w: World, l: nat)
    requires Inv(w, NoDuty) && w.World? && l < |w.loops| && w.loops[l].pc.Dispatching? && w.loops[l].pc.rest != []
    ensures Inv(NextChannel(w, l), NoDuty)
  {
    HeadFacts(w, l);
    PcFacts(w, l, NoDuty);
    hide Inv, EntryInv;
    PcKeeps(w, l, w.loops[l].(pc := Dispatching(w.loops[l].pc.rest[1..], AtClose)));
  }

  lemma WriteBranchKeeps(w: World, l: nat, n: nat)
    requires Inv(w, NoDuty) && At(w, l, AtWrite) && MayTake(w, l, n)
    ensures Inv(Apply(w, WriteBranch(l, n)), NoDuty)
  {
    HeadFacts(w, l);
    var head := w.loops[l].pc.rest[0];
    ApplyBranches(w, l, false, n);
    hide Inv, RunWrite, Apply;
    NextKeeps(w, l);
    if POLLOUT in head.revents {
      WriteKeeps(NextChannel(w, l), l, head.conn, n);
    }
  }

  lemma SwapKeeps(w: World, l: nat)
    requires Inv(w, NoDuty) && w.World? && l < |w.loops| && w.loops[l].pc.Dispatching? && w.loops[l].pc.rest == []
    ensures Inv(Apply(w, Swap(l)), NoDuty)
  {
    var p := w.loops[l];
    PcFacts(w, l, NoDuty);
    assert p.queue + [] == p.batch + p.queue;
    hide Inv;
    PcKeeps(w, l, p.(pc := Executing, batch := p.queue, queue := []));
  }

  /** The functors whose assertions fail when they run. */
  predicate FatalTask(conns: seq<Conn>, t: Task, n: nat) {
    match t
    case Destroy(c) => c < |conns| && IsWriting(conns[c])
    case SendInLoop(c, msg) => c < |conns| && PhaseOf(conns[c]) == Gone && LeavesBytes(conns[c], msg, n)
    case _ => false
  }

  lemma TaskKeeps(w: World, l: nat, t: Task, n: nat)
    requires Inv(w, if IsDuty(t) then Owes(l, t) else NoDuty) && w.World? && l < |w.loops| && w.loops[l].pc.Executing?
    requires IsLate(t) ==> LateOk(w.conns, t) && w.conns[t.c].loop == l
    requires t.SendInLoop? ==> n <= |t.msg|
    ensures if FatalTask(w.conns, t, n) then RunTask(w, l, t, n) == Crashed else Inv(RunTask(w, l, t, n), NoDuty)
  {
    if IsDuty(t) {
      RunningIsDue(w, l, t);
    }
    hide Inv, RunEstablish, RunRemove, RunDestroy, RunSend;
    match t
    case Establish(c) => EstablishKeeps(w, l, c);
    case RemoveInLoop(c) => RemoveKeeps(w, c);
    case Destroy(c) => DestroyKeeps(w, l, c);
    case SendInLoop(c, msg) => SendKeeps(w, l, c, msg, n);
    case ShutdownInLoop(c) => LateShutdownKeeps(w, c);
    case UserTask =>
  }

  lemma RunFirstKeeps(w: World, l: nat, n: nat)
    requires Inv(w, NoDuty) && Enabled(w, RunFirst(l, n))
    ensures if FatalTask(w.conns, w.loops[l].batch[0], n) then Apply(w, RunFirst(l, n)) == Crashed
            else Inv(Apply(w, RunFirst(l, n)), NoDuty)
  {
    hide Inv, RunTask, LateOk, FatalTask;
    TakeKeeps(w, l);
    TaskKeeps(Taken(w, l), l, w.loops[l].batch[0], n);
  }

  // ---------------------------------------------------------------- a new connection

  lemma FreshIsOk(l: nat, fd: nat, t: Table<nat>, c: nat)
    requires fd !in t
    ensures ConnInv(Fresh(l, fd)) && SlotInv(Fresh(l, fd), t, c) && PhaseOf(Fresh(l, fd)) == Establishing
  {
  }

  /** A descriptor that is not open is in no table. */
  lemma FdIsNew(w: World, fd: nat, l: nat)
    requires Inv(w, NoDuty) && w.World? && l < |w.loops|
    requires forall c :: 0 <= c < |w.conns| && !w.conns[c].freed ==> w.conns[c].fd != fd
    ensures fd !in w.loops[l].table
  {
    if fd in w.loops[l].table {
      OwnerFacts(w, l, fd, NoDuty);
      ConnFacts(w, w.loops[l].table[fd].owner, NoDuty);
    }
  }

  lemma AppendKeepsConns(w: World, fd: nat, l: nat)
    requires Inv(w, NoDuty) && w.World? && l < |w.loops| && fd !in w.loops[l].table
    requires forall c :: 0 <= c < |w.conns| && !w.conns[c].freed ==> w.conns[c].fd != fd
    ensures var w' := Appended(w, fd, l);
            Placed(w') && ConnsInv(w'.conns) && SlotsInv(w') && FdInv(w'.conns)
  {
    FreshIsOk(l, fd, w.loops[l].table, |w.conns|);
    hide ConnInv, SlotInv, OwnersInv, RegistryInv, QueueInv, LateInv, PcsInv;
  }

  lemma AppendKeepsOwners(w: World, fd: nat, l: nat)
    requires w.World? && OwnersInv(w) && l < |w.loops|
    ensures OwnersInv(Appended(w, fd, l))
  {
    var w' := Appended(w, fd, l);
    forall k, f | 0 <= k < |w'.loops| && f in w'.loops[k].table
      ensures OwnerInv(w'.conns, k, f, w'.loops[k].table[f].owner)
    {
      assert OwnerInv(w.conns, k, f, w.loops[k].table[f].owner);
    }
  }

  lemma AppendKeepsRegistry(w: World, fd: nat, l: nat)
    requires w.World? && RegistryInv(w) && l < |w.loops|
    ensures RegistryInv(Appended(w, fd, l))
  {
    var w' := Appended(w, fd, l);
    forall d | 0 <= d < |w'.conns|
      ensures ConnName(w'.server, d) in w'.registry <==> Named(PhaseOf(w'.conns[d]))
      ensures ConnName(w'.server, d) in w'.registry ==> w'.registry[ConnName(w'.server, d)] == d
    {
      if ConnName(w.server, d) == ConnName(w.server, |w.conns|) {
        NamesDistinct(w.server, d, |w.conns|);
      }
    }
  }

  lemma AppendKeepsQueues(w: World, fd: nat, l: nat)
    requires w.World? && QueueInv(w, NoDuty) && l < |w.loops|
    ensures QueueInv(Appended(w, fd, l), Owes(l, Establish(|w.conns|)))
  {
    var c, w' := |w.conns|, Appended(w, fd, l);
    forall k, u | 0 <= k < |w'.loops| && IsDuty(u)
      ensures Queued(w'.loops[k], u) + (if Owes(l, Establish(c)) == Owes(k, u) then 1 else 0) == Wanted(w'.conns, k, u)
    {
      assert Queued(w.loops[k], u) + 0 == Wanted(w.conns, k, u);
    }
  }

  lemma AppendKeepsLate(w: World, fd: nat, l: nat)
    requires w.World? && LateInv(w) && l < |w.loops|
    ensures LateInv(Appended(w, fd, l))
  {
    var w' := Appended(w, fd, l);
    assert forall u :: LateOk(w.conns, u) ==> LateOk(w'.conns, u) && w'.conns[u.c].loop == w.conns[u.c].loop;
    hide LateOk;
    forall k | 0 <= k < |w'.loops|
      ensures LateIn(w'.conns, k, w'.loops[k].batch) && LateIn(w'.conns, k, w'.loops[k].queue)
    {
      assert LateIn(w.conns, k, w.loops[k].batch) && LateIn(w.conns, k, w.loops[k].queue);
    }
  }

  lemma AppendKeepsPcs(w: World, fd: nat, l: nat)
    requires w.World? && PcsInv(w) && l < |w.loops|
    ensures PcsInv(Appended(w, fd, l))
  {
    var w' := Appended(w, fd, l);
    forall k | 0 <= k < |w'.loops|
      ensures PcInv(w'.conns, k, w'.loops[k])
    {
      assert PcInv(w.conns, k, w.loops[k]);
      if w.loops[k].pc.Dispatching? {
        var rest := w.loops[k].pc.rest;
        forall j | 0 <= j < |rest|
          ensures EntryInv(w'.conns, k, rest[j], if j == 0 then w.loops[k].pc.stage else AtClose)
        {
          assert EntryInv(w.conns, k, rest[j], if j == 0 then w.loops[k].pc.stage else AtClose);
        }
      }
    }
  }

  lemma AppendKeeps(w: World, fd: nat, l: nat)
    requires Inv(w, NoDuty) && w.World? && l < |w.loops|
    requires forall c :: 0 <= c < |w.conns| && !w.conns[c].freed ==> w.conns[c].fd != fd
    ensures Inv(Appended(w, fd, l), Owes(l, Establish(|w.conns|)))
  {
    FdIsNew(w, fd, l);
    AppendKeepsConns(w, fd, l);
    AppendKeepsOwners(w, fd, l);
    AppendKeepsRegistry(w, fd, l);
    AppendKeepsQueues(w, fd, l);
    AppendKeepsLate(w, fd, l);
    AppendKeepsPcs(w, fd, l);
    hide Placed, ConnsInv, SlotsInv, OwnersInv, RegistryInv, QueueInv, LateInv, PcsInv, FdInv;
  }

  lemma AcceptKeeps(w: World, fd: nat, l: nat)
    requires Inv(w, NoDuty) && Enabled(w, Accept(fd, l))
    ensures Inv(Apply(w, Accept(fd, l)), NoDuty)
  {
    hide Inv, RunEstablish;
    AppendKeeps(w, fd, l);
    var c := |w.conns|;
    var w' := Appended(w, fd, l);
    if l == 0 {
      EstablishKeeps(w', 0, c);
    } else {
      PostDue(w', l, Establish(c));
    }
  }

  // ---------------------------------------------------------------- other threads

  lemma PendKeeps(w: World, t: Task)
    requires Inv(w, NoDuty) && LateOk(w.conns, t)
    ensures Inv(w.(pending := w.pending + multiset{t}), NoDuty)
  {
    hide ConnInv, SlotInv, OwnerInv, PcInv, LateIn, LateOk, FdInv, Queued, Wanted, ConnName;
  }

  lemma ForeignSendKeeps(w: World, c: nat, msg: string)
    requires Inv(w, NoDuty) && Enabled(w, ForeignSend(c, msg))
    ensures Inv(Apply(w, ForeignSend(c, msg)), NoDuty)
  {
    ConnFacts(w, c, NoDuty);
    var conn := w.conns[c];
    assert StreamInv(conn);
    hide Inv, ConnInv, StreamInv;
    if conn.state == kConnected {
      TestsKeepStream(conn);
      QuietKeeps(w, c, SendTested(conn));
      PendKeeps(WithConn(w, c, SendTested(conn)), SendInLoop(c, msg));
    }
  }

  lemma ForeignShutdownKeeps(w: World, c: nat)
    requires Inv(w, NoDuty) && Enabled(w, ForeignShutdown(c))
    ensures Inv(Apply(w, ForeignShutdown(c)), NoDuty)
  {
    ConnFacts(w, c, NoDuty);
    var conn := w.conns[c];
    assert StreamInv(conn);
    hide Inv, ConnInv, StreamInv;
    if conn.state == kConnected {
      TestsKeepStream(conn);
      QuietKeeps(w, c, ShutdownTested(conn));
      PendKeeps(WithConn(w, c, ShutdownTested(conn)), ShutdownInLoop(c));
    }
  }

  lemma UnpendKeeps(w: World, t: Task)
    requires Inv(w, NoDuty) && w.World? && t in w.pending
    ensures Inv(w.(pending := w.pending - multiset{t}), NoDuty)
    ensures LateOk(w.conns, t) && w.conns[t.c].loop < |w.loops|
  {
    assert LateOk(w.conns, t);
    hide ConnInv, SlotInv, OwnerInv, PcInv, LateIn, FdInv, Queued, Wanted, ConnName;
  }

  lemma ForeignPostKeeps(w: World, t: Task)
    requires Inv(w, NoDuty) && Enabled(w, ForeignPost(t))
    ensures Inv(Apply(w, ForeignPost(t)), NoDuty)
  {
    UnpendKeeps(w, t);
    hide Inv;
    PostKeeps(w.(pending := w.pending - multiset{t}), w.conns[t.c].loop, t, NoDuty);
  }

  // ---------------------------------------------------------------- the end of an object

  /** A connection that nobody owns any more is gone. */
  lemma UnownedIsGone(w: World, c: nat)
    requires Inv(w, NoDuty) && w.World? && c < |w.conns| && Unowned(w, c)
    ensures PhaseOf(w.conns[c]) == Gone
  {
    ConnFacts(w, c, NoDuty);
    var l := w.conns[c].loop;
    NotQueued(w, c, l, Destroy(c));
    assert Wanted(w.conns, l, Destroy(c)) == 0;
    hide Unowned, StreamInv;
  }

  lemma NotQueued(w: World, c: nat, l: nat, t: Task)
    requires w.World? && Unowned(w, c) && l < |w.loops| && About(t, c)
    ensures Queued(w.loops[l], t) == 0
  {
    var p := w.loops[l];
    assert t !in p.batch && t !in p.queue;
  }

  lemma NotHandled(w: World, c: nat)
    requires Inv(w, NoDuty) && w.World? && c < |w.conns| && PhaseOf(w.conns[c]) == Gone
    ensures !IsHandling(w, c)
  {
    forall l | 0 <= l < |w.loops| && w.loops[l].pc.Dispatching? && w.loops[l].pc.rest != []
      ensures !Handles(w.loops[l].pc, c)
    {
      HeadFacts(w, l);
      hide Inv;
    }
  }

  lemma FreedKeepsRest(w: World, c: nat, conn: Conn)
    requires Inv(w, NoDuty) && w.World? && c < |w.conns| && PhaseOf(w.conns[c]) == Gone
    requires conn == w.conns[c].(freed := true)
    ensures var w' := WithConn(w, c, conn);
            Placed(w') && ConnsInv(w'.conns) && SlotsInv(w') && FdInv(w'.conns) && RegistryInv(w')
  {
    assert ConnInv(conn) by {
      ConnFacts(w, c, NoDuty);
      FreedKeepsStream(w.conns[c]);
      hide StreamInv, Inv;
    }
    hide ConnInv, OwnersInv, QueueInv, LateInv, PcsInv, ConnName;
  }

  lemma FreedKeepsOwners(w: World, c: nat, conn: Conn)
    requires w.World? && OwnersInv(w) && PcsInv(w) && c < |w.conns| && conn == w.conns[c].(freed := true)
    ensures OwnersInv(WithConn(w, c, conn)) && PcsInv(WithConn(w, c, conn))
  {
    var w' := WithConn(w, c, conn);
    forall l, fd | 0 <= l < |w'.loops| && fd in w'.loops[l].table
      ensures OwnerInv(w'.conns, l, fd, w'.loops[l].table[fd].owner)
    {
      assert OwnerInv(w.conns, l, fd, w.loops[l].table[fd].owner);
    }
    forall l | 0 <= l < |w'.loops|
      ensures PcInv(w'.conns, l, w'.loops[l])
    {
      assert PcInv(w.conns, l, w.loops[l]);
      hide PcInv;
      PcUnmoved(w.conns, c, conn, l, w.loops[l]);
    }
  }

  lemma FreedKeepsQueues(w: World, c: nat, conn: Conn)
    requires w.World? && Placed(w) && QueueInv(w, NoDuty) && c < |w.conns| && conn == w.conns[c].(freed := true)
    ensures QueueInv(WithConn(w, c, conn), NoDuty)
  {
    hide QueueInv, Moved;
    MoveKeepsQueues(w, c, conn, w.loops[conn.loop].table, NoDuty, NoDuty);
    MovedBesideTable(w, c, conn);
  }

  lemma FreedKeepsLate(w: World, c: nat, conn: Conn)
    requires w.World? && LateInv(w) && c < |w.conns| && conn == w.conns[c].(freed := true) && Unowned(w, c)
    ensures LateInv(WithConn(w, c, conn))
  {
    var w' := WithConn(w, c, conn);
    assert forall u :: LateOk(w.conns, u) && !About(u, c) ==>
      LateOk(w'.conns, u) && w'.conns[u.c].loop == w.conns[u.c].loop;
    hide LateOk, About;
    forall l | 0 <= l < |w'.loops|
      ensures LateIn(w'.conns, l, w'.loops[l].batch) && LateIn(w'.conns, l, w'.loops[l].queue)
    {
      assert LateIn(w.conns, l, w.loops[l].batch) && LateIn(w.conns, l, w.loops[l].queue);
    }
  }

  lemma FreeKeeps(w: World, c: nat)
    requires Inv(w, NoDuty) && Enabled(w, Free(c))
    ensures Inv(Apply(w, Free(c)), NoDuty)
  {
    UnownedIsGone(w, c);
    NotHandled(w, c);
    ConnFacts(w, c, NoDuty);
    assert w.conns[c].state == kDisconnected;
    var conn := w.conns[c].(freed := true);
    FreedKeepsRest(w, c, conn);
    FreedKeepsOwners(w, c, conn);
    FreedKeepsQueues(w, c, conn);
    FreedKeepsLate(w, c, conn);
    hide Placed, ConnsInv, SlotsInv, OwnersInv, RegistryInv, QueueInv, LateInv, PcsInv, FdInv, ConnInv, Unowned;
  }

  // ---------------------------------------------------------------- all of them

  /** The steps whose assertions fail. */
  predicate Fatal(w: World, step: Step)
    requires Enabled(w, step)
  {
    match step
    case ReadBranch(l, eof) =>
      eof && ClosesFirst(w.loops[l].pc.rest[0].revents) && Reads(w.loops[l].pc.rest[0].revents)
    case RunFirst(l, n) => FatalTask(w.conns, w.loops[l].batch[0], n)
    case _ => false
  }

  /** Every step either keeps the invariant or is one of those. */
  lemma StepKeeps(w: World, step: Step)
    requires Inv(w, NoDuty) && Enabled(w, step)
    ensures if Fatal(w, step) then Apply(w, step) == Crashed else Inv(Apply(w, step), NoDuty)
  {
    hide Inv, FatalTask;
    match step
    case Accept(fd, io) => AcceptKeeps(w, fd, io);
    case PollReturns(l, ready) => PollKeeps(w, l, ready);
    case CloseBranch(l) => CloseBranchKeeps(w, l);
    case ReadBranch(l, eof) => ReadBranchKeeps(w, l, eof);
    case WriteBranch(l, n) => WriteBranchKeeps(w, l, n);
    case Swap(l) => SwapKeeps(w, l);
    case RunFirst(l, n) => RunFirstKeeps(w, l, n);
    case BatchDone(l) => PcKeeps(w, l, w.loops[l].(pc := Polling));
    case UserSend(l, c, msg, n) => if w.conns[c].state == kConnected { SendKeepsConnected(w, l, c, msg, n); }
    case UserShutdown(l, c) => HalfCloseKeeps(w, c);
    case PostUser(l) => PostKeepsUser(w, l, NoDuty);
    case ForeignSend(c, msg) => ForeignSendKeeps(w, c, msg);
    case ForeignShutdown(c) => ForeignShutdownKeeps(w, c);
    case ForeignPost(t) => ForeignPostKeeps(w, t);
    case Free(c) => FreeKeeps(w, c);
  }

  lemma SendKeepsConnected(w: World, l: nat, c: nat, msg: string, n: nat)
    requires Inv(w, NoDuty) && w.World? && l < |w.loops| && c < |w.conns| && w.conns[c].loop == l && n <= |msg|
    requires w.conns[c].state == kConnected
    ensures Inv(RunSend(w, l, c, msg, n), NoDuty)
  {
    ConnFacts(w, c, NoDuty);
    assert PhaseOf(w.conns[c]) != Gone;
    hide Inv, ConnInv, RunSend;
    SendKeeps(w, l, c, msg, n);
  }
}
