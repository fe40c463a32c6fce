/** All event loops of a server at once: loop 0 is the base loop, where `TcpServer` lives, and
    the others are IO loops. Each step is one callback, run by one loop on its own thread; the
    steps of different loops interleave in any order. A failing assertion of the source leads
    to the world `Crashed`. Threads that belong to no loop may call `send` and `shutdown`. */
module Lifecycle {
  import opened PollTable
  import opened Connection
  import opened Naming

  /** What sits in a loop's `funcQueue`. `SendInLoop` and `ShutdownInLoop` are posted by other
      threads. `UserTask` stands for any functor that touches no connection by itself,
      write-complete callbacks included. */
  datatype Task =
    | Establish(c: nat)
    | RemoveInLoop(c: nat)
    | Destroy(c: nat)
    | SendInLoop(c: nat, msg: string)
    | ShutdownInLoop(c: nat)
    | UserTask

  /** One element of `activeChannels_`. */
  datatype Active = Active(conn: nat, revents: Mask)

  /** Which branch of `Channel::handleEvents` the first active channel has reached. */
  datatype Stage = AtClose | AtRead | AtWrite

  datatype Pc = Polling | Dispatching(rest: seq<Active>, stage: Stage) | Executing

  datatype Loop = Loop(pc: Pc, table: Table<nat>, batch: seq<Task>, queue: seq<Task>)

  /** `conns[c]` is the connection with index `c`; `registry` is `connections_`; `pending` holds
      the functors that other threads are about to post. */
  datatype World =
    | Crashed
    | World(server: string, notify: bool, loops: seq<Loop>, conns: seq<Conn>, registry: map<string, nat>,
            pending: multiset<Task>)

  // ---------------------------------------------------------------- the callbacks

  function WithLoop(w: World, l: nat, p: Loop): World
    requires w.World? && l < |w.loops|
  {
    w.(loops := w.loops[l := p])
  }

  /** `queueInLoop` on loop `l`. */
  function Post(w: World, l: nat, t: Task): World
    requires w.World? && l < |w.loops|
  {
    WithLoop(w, l, w.loops[l].(queue := w.loops[l].queue + [t]))
  }

  function WithConn(w: World, c: nat, conn: Conn): World
    requires w.World? && c < |w.conns|
  {
    w.(conns := w.conns[c := conn])
  }

  /** Connection `c` of loop `l` after one of its handlers. */
  function After(w: World, l: nat, c: nat, e: Effect<nat>): World
    requires w.World? && l < |w.loops| && c < |w.conns|
  {
    var w' := WithLoop(WithConn(w, c, e.conn), l, w.loops[l].(table := e.table));
    if e.queued then Post(w', l, UserTask) else w'
  }

  /** Connection `c` exists and `l` is its loop, as `assertInLoopThread` demands. */
  predicate OnLoop(w: World, l: nat, c: nat) {
    w.World? && l < |w.loops| && c < |w.conns| && w.conns[c].loop == l
  }

  /** And its channel meets the assertions of `updateChannel`. */
  predicate MayUpdate(w: World, l: nat, c: nat) {
    OnLoop(w, l, c) && UpdateOk(w.loops[l].table, w.conns[c].fd, w.conns[c].indexed)
  }

  function RunEstablish(w: World, l: nat, c: nat): World {
    if !MayUpdate(w, l, c) then Crashed
    else After(w, l, c, Established(w.conns[c], w.loops[l].table, c))
  }

  /** `removeConnectionInLoop`, whose assertion is that the name was in the map. */
  function RunRemove(w: World, l: nat, c: nat): World {
    if !(w.World? && l == 0 && c < |w.conns| && w.conns[c].loop < |w.loops|
         && ConnName(w.server, c) in w.registry)
    then Crashed
    else
      var conn := w.conns[c];
      var erased := conn.(runs := conn.runs.(erased := conn.runs.erased + 1));
      Post(WithConn(w, c, erased).(registry := Erased(w.registry, w.server, c)), conn.loop, Destroy(c))
  }

  function RunDestroy(w: World, l: nat, c: nat): World {
    if !MayUpdate(w, l, c) || !DestroyOk(w.conns[c], w.loops[l].table, c) then Crashed
    else After(w, l, c, Destroyed(w.conns[c], w.loops[l].table, c))
  }

  /** `handleClose`, with `closeCallback_` bound to `TcpServer::removeConnection`. */
  function RunClose(w: World, l: nat, c: nat): World {
    if !MayUpdate(w, l, c) || !CloseOk(w.conns[c]) then Crashed
    else
      var w' := After(w, l, c, Closed(w.conns[c], w.loops[l].table, c));
      if l == 0 then RunRemove(w', 0, c) else Post(w', 0, RemoveInLoop(c))
  }

  /** `sendInLoop` when write(2), if it is called, takes `n` bytes. */
  function RunSend(w: World, l: nat, c: nat, msg: string, n: nat): World
    requires n <= |msg|
  {
    if !OnLoop(w, l, c) || !SendOk(w.conns[c], w.loops[l].table, msg, n) then Crashed
    else After(w, l, c, Sent(w.conns[c], w.loops[l].table, c, msg, n, w.notify))
  }

  function RunShutdown(w: World, l: nat, c: nat): World {
    if !OnLoop(w, l, c) then Crashed else WithConn(w, c, HalfClosedInLoop(w.conns[c]))
  }

  function RunWrite(w: World, l: nat, c: nat, n: nat): World
    requires w.World? && (c < |w.conns| ==> n <= |w.conns[c].outbuf|)
  {
    if !OnLoop(w, l, c) then Crashed
    else After(w, l, c, Drained(w.conns[c], w.loops[l].table, n, w.notify))
  }

  function RunTask(w: World, l: nat, t: Task, n: nat): World
    requires t.SendInLoop? ==> n <= |t.msg|
  {
    match t
    case Establish(c) => RunEstablish(w, l, c)
    case RemoveInLoop(c) => RunRemove(w, l, c)
    case Destroy(c) => RunDestroy(w, l, c)
    case SendInLoop(c, msg) => RunSend(w, l, c, msg, n)
    case ShutdownInLoop(c) => RunShutdown(w, l, c)
    case UserTask => w
  }

  /** The world after `connections_[connName] = newConn`. */
  function Appended(w: World, fd: nat, l: nat): World
    requires w.World?
  {
    w.(conns := w.conns + [Fresh(l, fd)], registry := Entered(w.registry, w.server, |w.conns|))
  }

  /** `onNewConnection`, for the descriptor and the IO loop that were picked. */
  function RunAccept(w: World, fd: nat, l: nat): World
    requires w.World? && l < |w.loops|
  {
    var c, w' := |w.conns|, Appended(w, fd, l);
    if l == 0 then RunEstablish(w', 0, c) else Post(w', l, Establish(c))
  }

  /** What another thread has decided to post goes to the loop of its connection. */
  function RunPost(w: World, t: Task): World
    requires w.World?
  {
    if t.UserTask? || t.c >= |w.conns| || w.conns[t.c].loop >= |w.loops| then Crashed
    else Post(w.(pending := w.pending - multiset{t}), w.conns[t.c].loop, t)
  }

  predicate About(t: Task, c: nat) {
    !t.UserTask? && t.c == c
  }

  /** No shared pointer to connection `c` is left in the map or in any functor. */
  predicate Unowned(w: World, c: nat)
    requires w.World?
  {
    && ConnName(w.server, c) !in w.registry
    && (forall t :: t in w.pending ==> !About(t, c))
    && (forall l, k :: 0 <= l < |w.loops| && 0 <= k < |w.loops[l].batch| ==> !About(w.loops[l].batch[k], c))
    && (forall l, k :: 0 <= l < |w.loops| && 0 <= k < |w.loops[l].queue| ==> !About(w.loops[l].queue[k], c))
  }

  /** A loop is inside `handleEvents` of the channel of connection `c`. */
  predicate IsHandling(w: World, c: nat)
    requires w.World?
  {
    exists l :: 0 <= l < |w.loops| && Handles(w.loops[l].pc, c)
  }

  predicate Handles(pc: Pc, c: nat) {
    pc.Dispatching? && pc.rest != [] && pc.rest[0].conn == c && pc.stage != AtClose
  }

  /** The destructors of the connection, its channel and its socket, with their assertions. */
  function RunFree(w: World, c: nat): World
    requires w.World? && c < |w.conns|
  {
    if w.conns[c].state != kDisconnected || IsHandling(w, c) then Crashed
    else WithConn(w, c, w.conns[c].(freed := true))
  }

  // ---------------------------------------------------------------- the steps

  datatype Ready = Ready(fd: nat, revents: Mask)

  datatype Step =
    | Accept(fd: nat, io: nat)
    | PollReturns(l: nat, ready: seq<Ready>)
    | CloseBranch(l: nat)
    | ReadBranch(l: nat, eof: bool)
    | WriteBranch(l: nat, n: nat)
    | Swap(l: nat)
    | RunFirst(l: nat, n: nat)
    | BatchDone(l: nat)
    | UserSend(l: nat, c: nat, msg: string, n: nat)
    | UserShutdown(l: nat, c: nat)
    | PostUser(l: nat)
    | ForeignSend(c: nat, msg: string)
    | ForeignShutdown(c: nat)
    | ForeignPost(t: Task)
    | Free(c: nat)

  /** What poll(2) may answer: slots that are not masked, each at most once, with flags that
      were asked for or cannot be refused. */
  predicate AnswerOk(t: Table<nat>, ready: seq<Ready>) {
    && (forall k :: 0 <= k < |ready| ==>
          && ready[k].fd in t && !t[ready[k].fd].masked
          && ready[k].revents <= t[ready[k].fd].events + {POLLERR, POLLHUP, POLLNVAL})
    && (forall j, k :: 0 <= j < k < |ready| ==> ready[j].fd != ready[k].fd)
  }

  function ActiveOf(t: Table<nat>, ready: seq<Ready>): (r: seq<Active>)
    requires AnswerOk(t, ready)
    ensures |r| == |ready|
    ensures forall k :: 0 <= k < |r| ==> r[k] == Active(t[ready[k].fd].owner, ready[k].revents)
  {
    seq(|ready|, k requires 0 <= k < |ready| => Active(t[ready[k].fd].owner, ready[k].revents))
  }

  predicate Awake(w: World, l: nat) {
    w.World? && l < |w.loops| && !w.loops[l].pc.Polling?
  }

  predicate At(w: World, l: nat, stage: Stage) {
    w.World? && l < |w.loops| && w.loops[l].pc.Dispatching? && w.loops[l].pc.rest != [] && w.loops[l].pc.stage == stage
  }

  /** The bytes write(2) may take when `handleWrite` calls it. */
  predicate MayTake(w: World, l: nat, n: nat)
    requires At(w, l, AtWrite)
  {
    var c := w.loops[l].pc.rest[0].conn;
    c < |w.conns| ==> n <= |w.conns[c].outbuf|
  }

  predicate Enabled(w: World, step: Step) {
    && w.World?
    && match step
       case Accept(fd, io) =>
         && 0 < |w.loops| && io < |w.loops| && w.loops[0].pc.Dispatching?
         && forall c :: 0 <= c < |w.conns| && !w.conns[c].freed ==> w.conns[c].fd != fd
       case PollReturns(l, ready) => l < |w.loops| && w.loops[l].pc.Polling? && AnswerOk(w.loops[l].table, ready)
       case CloseBranch(l) => At(w, l, AtClose)
       case ReadBranch(l, _) => At(w, l, AtRead)
       case WriteBranch(l, n) => At(w, l, AtWrite) && MayTake(w, l, n)
       case Swap(l) => l < |w.loops| && w.loops[l].pc.Dispatching? && w.loops[l].pc.rest == []
       case RunFirst(l, n) =>
         && l < |w.loops| && w.loops[l].pc.Executing? && w.loops[l].batch != []
         && (w.loops[l].batch[0].SendInLoop? ==> n <= |w.loops[l].batch[0].msg|)
       case BatchDone(l) => l < |w.loops| && w.loops[l].pc.Executing? && w.loops[l].batch == []
       case UserSend(l, c, msg, n) => Awake(w, l) && c < |w.conns| && w.conns[c].loop == l && n <= |msg|
       case UserShutdown(l, c) => Awake(w, l) && c < |w.conns| && w.conns[c].loop == l
       case PostUser(l) => l < |w.loops|
       case ForeignSend(c, _) => c < |w.conns| && !w.conns[c].freed
       case ForeignShutdown(c) => c < |w.conns| && !w.conns[c].freed
       case ForeignPost(t) => t in w.pending
       case Free(c) => c < |w.conns| && !w.conns[c].freed && Unowned(w, c)
  }

  function AtStage(w: World, l: nat, stage: Stage): World
    requires w.World? && l < |w.loops| && w.loops[l].pc.Dispatching?
  {
    WithLoop(w, l, w.loops[l].(pc := w.loops[l].pc.(stage := stage)))
  }

  function NextChannel(w: World, l: nat): World
    requires w.World? && l < |w.loops| && w.loops[l].pc.Dispatching? && w.loops[l].pc.rest != []
  {
    WithLoop(w, l, w.loops[l].(pc := Dispatching(w.loops[l].pc.rest[1..], AtClose)))
  }

  function Apply(w: World, step: Step): World
    requires Enabled(w, step)
  {
    match step
    case Accept(fd, io) => RunAccept(w, fd, io)
    case PollReturns(l, ready) =>
      WithLoop(w, l, w.loops[l].(pc := Dispatching(ActiveOf(w.loops[l].table, ready), AtClose)))
    case CloseBranch(l) =>
      var head := w.loops[l].pc.rest[0];
      var w' := AtStage(w, l, AtRead);
      if ClosesFirst(head.revents) then RunClose(w', l, head.conn) else w'
    case ReadBranch(l, eof) =>
      var head := w.loops[l].pc.rest[0];
      var w' := AtStage(w, l, AtWrite);
      if Reads(head.revents) && eof then RunClose(w', l, head.conn) else w'
    case WriteBranch(l, n) =>
      var head := w.loops[l].pc.rest[0];
      var w' := NextChannel(w, l);
      if POLLOUT in head.revents then RunWrite(w', l, head.conn, n) else w'
    case Swap(l) => WithLoop(w, l, w.loops[l].(pc := Executing, batch := w.loops[l].queue, queue := []))
    case RunFirst(l, n) =>
      var t := w.loops[l].batch[0];
      RunTask(WithLoop(w, l, w.loops[l].(batch := w.loops[l].batch[1..])), l, t, n)
    case BatchDone(l) => WithLoop(w, l, w.loops[l].(pc := Polling))
    case UserSend(l, c, msg, n) => if w.conns[c].state == kConnected then RunSend(w, l, c, msg, n) else w
    case UserShutdown(l, c) => WithConn(w, c, HalfClosed(w.conns[c]))
    case PostUser(l) => Post(w, l, UserTask)
    case ForeignSend(c, msg) =>
      if w.conns[c].state != kConnected then w
      else WithConn(w, c, SendTested(w.conns[c])).(pending := w.pending + multiset{SendInLoop(c, msg)})
    case ForeignShutdown(c) =>
      if w.conns[c].state != kConnected then w
      else WithConn(w, c, ShutdownTested(w.conns[c])).(pending := w.pending + multiset{ShutdownInLoop(c)})
    case ForeignPost(t) => RunPost(w, t)
    case Free(c) => RunFree(w, c)
  }

  /** A server that has just started: every loop is at poll and no connection was made. */
  predicate Init(w: World) {
    && w.World? && |w.loops| > 0 && w.conns == [] && w.registry == map[] && w.pending == multiset{}
    && forall l :: 0 <= l < |w.loops| ==> w.loops[l] == Loop(Polling, map[], [], [])
  }

  predicate Legal(w: World, steps: seq<Step>)
    decreases |steps|
  {
    steps == [] || (Enabled(w, steps[0]) && Legal(Apply(w, steps[0]), steps[1..]))
  }

  function Exec(w: World, steps: seq<Step>): World
    requires Legal(w, steps)
    decreases |steps|
  {
    if steps == [] then w else Exec(Apply(w, steps[0]), steps[1..])
  }
}
