/** One connection: its state, its channel and its output path. What each handler does is
    given by a function on the value `Conn`; the class `TcpConnection` is proved against
    those functions, and the event loops of `Lifecycle` run them. */
module Connection {
  import opened PollTable

  datatype State = kConnecting | kConnected | kDisconnecting | kDisconnected

  /** What the connection asks of its socket. */
  datatype SysCall = Write(data: string) | ShutdownWrite

  /** How often each stage of the connection's life has run. */
  datatype Runs = Runs(established: nat, closed: nat, erased: nat, destroyed: nat)

  /** A write-complete functor that was queued: after a `sendInLoop`, of which message, or after
      a `handleWrite`, and how many bytes were still buffered then. */
  datatype Completion = AfterSend(msg: string, left: nat) | AfterDrain(left: nat)

  datatype Conn = Conn(
    loop: nat,            // the IO loop it belongs to
    fd: nat,
    state: State,
    events: Mask,         // what its channel asks for
    indexed: bool,        // whether its channel has an index
    outbuf: string,       // outputBuffer_
    accepted: string,     // history: every message given to sendInLoop, concatenated
    calls: seq<SysCall>,  // history: the calls made on the socket
    runs: Runs,           // history
    completions: seq<Completion>,  // history
    foreign: bool,        // history: whether another thread has passed the test of send or shutdown
    freed: bool)          // whether the object is gone and its descriptor closed

  /** What `readFd` returns: bytes, the end of the stream, or an error. */
  datatype ReadResult = Data(bytes: string) | EndOfStream | ReadError

  /** A connection, its loop's table, and whether a write-complete functor was queued. */
  datatype Effect<O> = Effect(conn: Conn, table: Table<O>, queued: bool)

  function Fresh(loop: nat, fd: nat): Conn {
    Conn(loop, fd, kConnecting, NONE_EVENT, false, "", "", [], Runs(0, 0, 0, 0), [], false, false)
  }

  predicate IsWriting(c: Conn) {
    POLLOUT in c.events
  }

  // ---------------------------------------------------------------- the handlers

  /** The channel takes the mask `events` and tells the poller. */
  function Watching<O>(c: Conn, t: Table<O>, owner: O, events: Mask): Effect<O>
    requires UpdateOk(t, c.fd, c.indexed)
  {
    Effect(c.(events := events, indexed := true), Update(t, owner, c.fd, events, c.indexed), false)
  }

  /** Whether `sendInLoop` tries the socket before it buffers. */
  predicate WritesDirectly(c: Conn) {
    !IsWriting(c) && c.outbuf == ""
  }

  /** Whether `sendInLoop` has bytes to append to the buffer, when write(2) takes `n`. */
  predicate LeavesBytes(c: Conn, msg: string, n: nat) {
    if WritesDirectly(c) then n < |msg| else msg != ""
  }

  /** The assertions `sendInLoop` meets: those of `updateChannel`, if it enables writing. */
  predicate SendOk<O>(c: Conn, t: Table<O>, msg: string, n: nat) {
    LeavesBytes(c, msg, n) && !IsWriting(c) ==> UpdateOk(t, c.fd, c.indexed)
  }

  /** `sendInLoop` when write(2), if it is called, takes `n` bytes. */
  function Sent<O>(c: Conn, t: Table<O>, owner: O, msg: string, n: nat, notify: bool): Effect<O>
    requires n <= |msg| && SendOk(c, t, msg, n)
  {
    var ret := if WritesDirectly(c) then n else 0;
    var calls := if WritesDirectly(c) then c.calls + [Write(msg[..n])] else c.calls;
    var c' := c.(accepted := c.accepted + msg, calls := calls);
    if ret == |msg| then Effect(if notify then Completed(c', AfterSend(msg, |c.outbuf|)) else c', t, notify)
    else
      var buffered := c'.(outbuf := c.outbuf + msg[ret..]);
      if IsWriting(c) then Effect(buffered, t, false)
      else Watching(buffered, t, owner, c.events + WRITE_EVENT)
  }

  function Completed(c: Conn, done: Completion): Conn {
    c.(completions := c.completions + [done])
  }

  function HalfClosedInLoop(c: Conn): Conn {
    if IsWriting(c) then c else c.(calls := c.calls + [ShutdownWrite])
  }

  /** `shutdown` on the loop's own thread. */
  function HalfClosed(c: Conn): Conn {
    if c.state == kConnected then HalfClosedInLoop(c.(state := kDisconnecting)) else c
  }

  /** The test of `send` on another thread, which then queues a `sendInLoop` functor. */
  function SendTested(c: Conn): Conn {
    if c.state == kConnected then c.(foreign := true) else c
  }

  /** The test and the assignment of `shutdown` on another thread, which then queues a
      `shutdownInLoop` functor. */
  function ShutdownTested(c: Conn): Conn {
    if c.state == kConnected then c.(state := kDisconnecting, foreign := true) else c
  }

  /** `handleWrite` when write(2), if it is called, takes `n` bytes. The table keeps POLLOUT. */
  function Drained<O>(c: Conn, t: Table<O>, n: nat, notify: bool): Effect<O>
    requires n <= |c.outbuf|
  {
    if !IsWriting(c) then Effect(c, t, false)
    else
      var c' := c.(calls := c.calls + [Write(c.outbuf[..n])], outbuf := c.outbuf[n..]);
      if n < |c.outbuf| then Effect(c', t, false)
      else
        var last := c'.(events := c.events - WRITE_EVENT);
        var done := if notify then Completed(last, AfterDrain(|c'.outbuf|)) else last;
        Effect(if c.state == kDisconnecting then HalfClosedInLoop(done) else done, t, notify)
  }

  /** The assertion of `handleClose`. */
  predicate CloseOk(c: Conn) {
    c.state == kConnected || c.state == kDisconnecting
  }

  /** `handleClose` up to the call of `closeCallback_`. */
  function Closed<O>(c: Conn, t: Table<O>, owner: O): Effect<O>
    requires UpdateOk(t, c.fd, c.indexed)
  {
    Watching(c.(state := kDisconnected, runs := c.runs.(closed := c.runs.closed + 1)), t, owner, NONE_EVENT)
  }

  function Established<O>(c: Conn, t: Table<O>, owner: O): Effect<O>
    requires UpdateOk(t, c.fd, c.indexed)
  {
    var c' := c.(state := kConnected, runs := c.runs.(established := c.runs.established + 1));
    Watching(c', t, owner, c.events + READ_EVENT)
  }

  /** `connectionDestryed` up to the call of `Channel::remove`. */
  function Detached<O>(c: Conn, t: Table<O>, owner: O): (e: Effect<O>)
    requires UpdateOk(t, c.fd, c.indexed)
    ensures e.conn.runs == c.runs && e.conn.fd == c.fd
  {
    if c.state == kConnected then Watching(c.(state := kDisconnected), t, owner, NONE_EVENT)
    else Effect(c, t, false)
  }

  /** The assertions `connectionDestryed` meets. */
  predicate DestroyOk<O(==)>(c: Conn, t: Table<O>, owner: O) {
    && UpdateOk(t, c.fd, c.indexed)
    && var e := Detached(c, t, owner);
       RemoveOk(e.table, owner, c.fd, e.conn.events)
  }

  function Destroyed<O>(c: Conn, t: Table<O>, owner: O): Effect<O>
    requires UpdateOk(t, c.fd, c.indexed)
  {
    var e := Detached(c, t, owner);
    Effect(e.conn.(runs := c.runs.(destroyed := c.runs.destroyed + 1)), Drop(e.table, c.fd), false)
  }

  /** What a `sendInLoop` does to the stream. */
  lemma SentParts<O>(c: Conn, t: Table<O>, owner: O, msg: string, n: nat, notify: bool)
    requires n <= |msg| && SendOk(c, t, msg, n)
    ensures var c' := Sent(c, t, owner, msg, n, notify).conn;
            && c'.accepted == c.accepted + msg
            && if WritesDirectly(c) then c'.calls == c.calls + [Write(msg[..n])] && c'.outbuf == msg[n..]
               else c'.calls == c.calls && c'.outbuf == c.outbuf + msg
  {
  }

  /** What it does to the interest in writing, and what it leaves alone. */
  lemma SentRest<O>(c: Conn, t: Table<O>, owner: O, msg: string, n: nat, notify: bool)
    requires n <= |msg| && SendOk(c, t, msg, n)
    ensures var c' := Sent(c, t, owner, msg, n, notify).conn;
            && (IsWriting(c') <==> IsWriting(c) || LeavesBytes(c, msg, n))
            && (c'.loop, c'.fd, c'.state, c'.runs, c'.foreign, c'.freed) ==
               (c.loop, c.fd, c.state, c.runs, c.foreign, c.freed)
  {
  }

  // ---------------------------------------------------------------- the output stream

  function Written(calls: seq<SysCall>): string {
    if calls == [] then ""
    else
      var last := calls[|calls| - 1];
      Written(calls[..|calls| - 1]) + (if last.Write? then last.data else "")
  }

  lemma WrittenAppend(calls: seq<SysCall>, call: SysCall)
    ensures Written(calls + [call]) == Written(calls) + (if call.Write? then call.data else "")
  {
  }

  /** One more call. */
  lemma FinAppend(calls: seq<SysCall>, call: SysCall)
    ensures FinIsLast(calls + [call]) <==> FinIsLast(calls) && (calls == [] || calls[|calls| - 1].Write?)
  {
    var more := calls + [call];
    if FinIsLast(more) && calls != [] {
      assert forall i :: 0 <= i < |calls| ==> more[i] == calls[i];
    }
  }

  predicate FinSent(c: Conn) {
    c.calls != [] && c.calls[|c.calls| - 1] == ShutdownWrite
  }

  /** shutdownWrite is called at most once, and nothing is written after it. */
  ghost predicate FinIsLast(calls: seq<SysCall>) {
    forall i :: 0 <= i < |calls| - 1 ==> calls[i].Write?
  }

  /** What every run keeps of the output path. */
  ghost predicate OutputInv(c: Conn) {
    Conserved(c) && Gated(c)
  }

  /** What was written and what is buffered is what was accepted, in order. */
  ghost predicate Conserved(c: Conn) {
    Written(c.calls) + c.outbuf == c.accepted
  }

  /** How state, interest, buffer and half-close constrain each other. */
  ghost predicate Gated(c: Conn) {
    && FinIsLast(c.calls)
    && (FinSent(c) ==> c.outbuf == "" && !IsWriting(c) && (c.state == kDisconnecting || c.state == kDisconnected))
    && (c.state == kConnecting ==> c.outbuf == "" && !IsWriting(c))
    && (CloseOk(c) ==> (IsWriting(c) <==> c.outbuf != ""))
    && (c.state == kDisconnecting ==> (FinSent(c) <==> c.outbuf == ""))
  }

  lemma Reassociate(a: string, s: string, n: nat)
    requires n <= |s|
    ensures (a + s[..n]) + s[n..] == a + s
  {
  }

  lemma Concatenate(a: string, b: string, c: string)
    ensures a + (b + c) == a + b + c
  {
  }

  /** Conservation: bytes written, then bytes buffered, are the bytes accepted. */
  lemma SendConservesBytes<O>(c: Conn, t: Table<O>, owner: O, msg: string, n: nat, notify: bool)
    requires n <= |msg| && SendOk(c, t, msg, n)
    ensures var c' := Sent(c, t, owner, msg, n, notify).conn;
            Written(c'.calls) + c'.outbuf == Written(c.calls) + c.outbuf + msg && c'.accepted == c.accepted + msg
  {
    SentParts(c, t, owner, msg, n, notify);
    WrittenAppend(c.calls, Write(msg[..n]));
    hide Written, Sent;
    var w := Written(c.calls);
    if WritesDirectly(c) {
      Reassociate(w, msg, n);
      assert w + c.outbuf == w;
    } else {
      Concatenate(w, c.outbuf, msg);
    }
  }

  lemma DrainedParts<O>(c: Conn, t: Table<O>, n: nat, notify: bool)
    requires n <= |c.outbuf| && IsWriting(c)
    ensures var c' := Drained(c, t, n, notify).conn;
            var calls := c.calls + [Write(c.outbuf[..n])];
            && c'.accepted == c.accepted && c'.outbuf == c.outbuf[n..]
            && (c'.calls == calls || c'.calls == calls + [ShutdownWrite])
  {
  }

  lemma DrainConservesBytes<O>(c: Conn, t: Table<O>, n: nat, notify: bool)
    requires n <= |c.outbuf|
    ensures var c' := Drained(c, t, n, notify).conn;
            Written(c'.calls) + c'.outbuf == Written(c.calls) + c.outbuf && c'.accepted == c.accepted
  {
    if IsWriting(c) {
      DrainedParts(c, t, n, notify);
      WrittenAppend(c.calls, Write(c.outbuf[..n]));
      WrittenAppend(c.calls + [Write(c.outbuf[..n])], ShutdownWrite);
      hide Written, Drained;
      var w := Written(c.calls);
      Reassociate(w, c.outbuf, n);
      assert w + c.outbuf[..n] + "" == w + c.outbuf[..n];
    }
  }

  /** `send` on the loop's thread reaches `sendInLoop` only while connected. */
  lemma SendKeepsOutput<O>(c: Conn, t: Table<O>, owner: O, msg: string, n: nat, notify: bool)
    requires OutputInv(c) && c.state == kConnected && n <= |msg| && SendOk(c, t, msg, n)
    ensures OutputInv(Sent(c, t, owner, msg, n, notify).conn)
  {
    SendConservesBytes(c, t, owner, msg, n, notify);
    SendKeepsGates(c, t, owner, msg, n, notify);
  }

  lemma SendKeepsGates<O>(c: Conn, t: Table<O>, owner: O, msg: string, n: nat, notify: bool)
    requires Gated(c) && c.state == kConnected && n <= |msg| && SendOk(c, t, msg, n)
    ensures Gated(Sent(c, t, owner, msg, n, notify).conn)
  {
    FinAppend(c.calls, Write(msg[..n]));
    SentParts(c, t, owner, msg, n, notify);
    SentRest(c, t, owner, msg, n, notify);
    hide FinIsLast, Sent;
  }

  lemma DrainKeepsOutput<O>(c: Conn, t: Table<O>, n: nat, notify: bool)
    requires OutputInv(c) && n <= |c.outbuf|
    ensures OutputInv(Drained(c, t, n, notify).conn)
  {
    DrainConservesBytes(c, t, n, notify);
    DrainKeepsGates(c, t, n, notify);
  }

  lemma DrainKeepsGates<O>(c: Conn, t: Table<O>, n: nat, notify: bool)
    requires Gated(c) && n <= |c.outbuf|
    ensures Gated(Drained(c, t, n, notify).conn)
  {
    FinAppend(c.calls, Write(c.outbuf[..n]));
    FinAppend(c.calls + [Write(c.outbuf[..n])], ShutdownWrite);
    hide FinIsLast;
  }

  lemma HalfCloseKeepsOutput(c: Conn)
    requires OutputInv(c)
    ensures OutputInv(HalfClosed(c)) && HalfClosed(c).accepted == c.accepted
  {
  }

  /** `shutdown` of a connected connection takes effect at once: the state moves on, and the
      half-close has been made if and only if nothing is buffered. Otherwise it is up to the
      last `handleWrite`. */
  lemma ShutdownMovesOn(c: Conn)
    requires OutputInv(c) && c.state == kConnected
    ensures HalfClosed(c).state == kDisconnecting && (FinSent(HalfClosed(c)) <==> c.outbuf == "")
    ensures ShutdownTested(c).state == kDisconnecting
    ensures HalfClosed(c).outbuf == c.outbuf && HalfClosed(c).accepted == c.accepted
  {
    hide Conserved, FinIsLast;
  }

  /** And that `handleWrite` makes it. */
  lemma LastDrainHalfCloses<O>(c: Conn, t: Table<O>, notify: bool)
    requires OutputInv(c) && c.state == kDisconnecting && c.outbuf != ""
    ensures var c' := Drained(c, t, |c.outbuf|, notify).conn;
            FinSent(c') && c'.outbuf == "" && Written(c'.calls) == c.accepted
  {
    DrainKeepsOutput(c, t, |c.outbuf|, notify);
    var c' := Drained(c, t, |c.outbuf|, notify).conn;
    assert c'.outbuf == "" && c'.state == kDisconnecting && c'.accepted == c.accepted;
    hide Drained, Written, FinIsLast;
    assert Written(c'.calls) + "" == Written(c'.calls);
  }

  /** The socket is tried exactly when nothing waits to be written before: the bytes taken go
      out at once, and only the rest is buffered; otherwise all of the message is. */
  lemma SendWritesDirectlyIff<O>(c: Conn, t: Table<O>, owner: O, msg: string, n: nat, notify: bool)
    requires OutputInv(c) && c.state == kConnected && n <= |msg| && SendOk(c, t, msg, n)
    ensures var c' := Sent(c, t, owner, msg, n, notify).conn;
            if c.outbuf == "" then c'.calls == c.calls + [Write(msg[..n])] && c'.outbuf == msg[n..]
            else c'.calls == c.calls && c'.outbuf == c.outbuf + msg
  {
    SentParts(c, t, owner, msg, n, notify);
    hide Sent, Conserved, FinIsLast;
  }

  /** A write-complete functor is queued exactly when the callback is set and the whole message
      went out, or was empty; and then it is recorded, once, with what is still buffered. */
  lemma SendCompletesIff<O>(c: Conn, t: Table<O>, owner: O, msg: string, n: nat, notify: bool)
    requires n <= |msg| && SendOk(c, t, msg, n)
    ensures var e := Sent(c, t, owner, msg, n, notify);
            && (e.queued <==> notify && !LeavesBytes(c, msg, n)) && (e.queued <==> notify && e.conn.outbuf == c.outbuf)
            && e.conn.completions == c.completions + (if e.queued then [AfterSend(msg, |e.conn.outbuf|)] else [])
  {
    SentParts(c, t, owner, msg, n, notify);
  }

  /** Likewise for `handleWrite`: exactly when it writes the last of the buffer. */
  lemma DrainCompletesIff<O>(c: Conn, t: Table<O>, n: nat, notify: bool)
    requires n <= |c.outbuf|
    ensures var e := Drained(c, t, n, notify);
            && (e.queued <==> notify && IsWriting(c) && n == |c.outbuf|)
            && e.conn.completions == c.completions + (if e.queued then [AfterDrain(|e.conn.outbuf|)] else [])
  {
  }

  /** `connectionDestryed` of a connection that was never closed disconnects it and takes its slot
      away, as it does for a closed one. */
  lemma DestroyedWithoutClose<O>(c: Conn, t: Table<O>, owner: O)
    requires c.state == kConnected && c.indexed && c.fd in t && t[c.fd].owner == owner
    ensures DestroyOk(c, t, owner)
    ensures var e := Destroyed(c, t, owner);
            && e.conn.state == kDisconnected && e.conn.events == NONE_EVENT && e.table == t - {c.fd}
            && e.conn.runs.closed == c.runs.closed && e.conn.runs.destroyed == c.runs.destroyed + 1
  {
  }

  /** The half-close is graceful: wherever shutdownWrite stands in the history, it stands last,
      it stands there once, and all that was ever accepted was written before it. */
  lemma GracefulHalfClose(c: Conn, k: nat)
    requires OutputInv(c) && k < |c.calls| && c.calls[k] == ShutdownWrite
    ensures k == |c.calls| - 1 && c.outbuf == ""
    ensures Written(c.calls[..k]) == c.accepted
    ensures forall j :: 0 <= j < |c.calls| && c.calls[j] == ShutdownWrite ==> j == k
  {
  }

  /** A write-complete functor is queued with bytes still buffered exactly when an empty
      message is sent while the buffer is not empty. */
  lemma PrematureWriteCompleteIff<O>(c: Conn, t: Table<O>, owner: O, msg: string, n: nat, notify: bool)
    requires OutputInv(c) && c.state == kConnected && n <= |msg| && SendOk(c, t, msg, n)
    ensures var e := Sent(c, t, owner, msg, n, notify);
            e.queued && e.conn.outbuf != "" <==> notify && msg == "" && c.outbuf != ""
  {
  }

  lemma DrainCompletesOnEmpty<O>(c: Conn, t: Table<O>, n: nat, notify: bool)
    requires OutputInv(c) && n <= |c.outbuf|
    ensures var e := Drained(c, t, n, notify);
            e.queued <==> notify && IsWriting(c) && e.conn.outbuf == ""
  {
  }

  // ------------------------------------------- functors that arrive late from other threads

  /** A `sendInLoop` functor queued by another thread does not look at the state. It keeps
      shutdownWrite the last call exactly if that was not called yet. */
  lemma LateSendKeepsFinLastIff<O>(c: Conn, t: Table<O>, owner: O, msg: string, n: nat, notify: bool)
    requires OutputInv(c) && n <= |msg| && SendOk(c, t, msg, n)
    ensures FinIsLast(Sent(c, t, owner, msg, n, notify).conn.calls) <==> !FinSent(c)
  {
    var calls := Sent(c, t, owner, msg, n, notify).conn.calls;
    if FinSent(c) {
      assert calls[|calls| - 2] == ShutdownWrite;
    }
  }

  /** A `shutdownInLoop` functor likewise: a second shutdownWrite follows the first exactly if
      the first was called before the functor ran. */
  lemma LateShutdownKeepsFinLastIff(c: Conn)
    requires OutputInv(c)
    ensures FinIsLast(HalfClosedInLoop(c).calls) <==> !FinSent(c)
  {
    var calls := HalfClosedInLoop(c).calls;
    if FinSent(c) {
      assert calls[|calls| - 2] == ShutdownWrite;
    }
  }

  /** A late `sendInLoop` that runs after the close. Before `connectionDestryed` it meets no
      failing assertion itself, but makes those of `connectionDestryed` fail exactly when it
      leaves bytes to buffer; afterwards, when the descriptor has left the table, it fails the
      assertion of `updateChannel` in exactly the same cases. */
  lemma LateSendFailsIff<O>(c: Conn, t: Table<O>, owner: O, msg: string, n: nat, notify: bool)
    requires c.state == kDisconnected && c.events == NONE_EVENT && c.indexed && n <= |msg|
    requires c.fd in t ==> t[c.fd] == Watch(owner, NONE_EVENT, true)
    ensures if c.fd in t then
              SendOk(c, t, msg, n)
              && var e := Sent(c, t, owner, msg, n, notify);
                 DestroyOk(e.conn, e.table, owner) <==> !LeavesBytes(c, msg, n)
            else SendOk(c, t, msg, n) <==> !LeavesBytes(c, msg, n)
  {
  }

  // ---------------------------------------------------------------- the class

  class TcpConnection {
    const loop: nat
    const poller: Poller
    const channel: Channel
    const notify: bool  // whether writeCompleteCallback_ is set
    var state: State
    var inputBuffer: string
    var outputBuffer: string
    ghost var accepted: string
    ghost var calls: seq<SysCall>
    ghost var runs: Runs
    ghost var completions: seq<Completion>
    ghost var foreign: bool

    constructor (loop: nat, poller: Poller, sockfd: nat, notify: bool)
      requires poller.Valid() && sockfd !in poller.channels
      ensures View() == Fresh(loop, sockfd) && Valid() && fresh(channel)
      ensures this.loop == loop && this.poller == poller && this.notify == notify
    {
      this.loop, this.poller, this.notify := loop, poller, notify;
      channel := new Channel(sockfd);
      state, inputBuffer, outputBuffer := kConnecting, "", "";
      accepted, calls, runs, completions, foreign := "", [], Runs(0, 0, 0, 0), [], false;
    }

    ghost function View(): Conn
      reads this, channel
    {
      Conn(loop, channel.fd, state, channel.events, channel.index >= 0, outputBuffer, accepted, calls, runs,
           completions, foreign, false)
    }

    ghost predicate Valid()
      reads this, channel, poller, poller.channels.Values`index
    {
      poller.Valid() && poller.Ready(channel)
    }

    /** As a functor it may run when the channel has long been removed: what it needs is that
        the assertions of `updateChannel` hold if it enables writing. */
    method SendInLoop(msg: string, n: nat) returns (queued: bool)
      requires poller.Valid() && n <= |msg|
      requires LeavesBytes(View(), msg, n) && !IsWriting(View()) ==> poller.MayUpdate(channel)
      modifies this, channel`events, channel`index, poller
      ensures poller.Valid() && (old(Valid()) ==> Valid())
      ensures Effect(View(), poller.Plain(), queued) == old(Sent(View(), poller.Plain(), channel, msg, n, notify))
    {
      hide Update, Meaning, Bijective;
      queued := false;
      var ret := 0;
      if !channel.IsWriting() && outputBuffer == "" {
        ret := n;
        calls := calls + [Write(msg[..n])];
      }
      accepted := accepted + msg;
      if ret < |msg| {
        outputBuffer := outputBuffer + msg[ret..];
        if !channel.IsWriting() {
          channel.EnableWrite(poller);
        }
      } else if notify {
        queued := true;
        completions := completions + [AfterSend(msg, |outputBuffer|)];
      }
    }

    /** On another thread a functor is posted instead. */
    method Send(msg: string, n: nat, inLoopThread: bool) returns (queued: bool, posted: bool)
      requires Valid() && n <= |msg|
      modifies this, channel`events, channel`index, poller
      ensures Valid() && posted == (old(state) == kConnected && !inLoopThread)
      ensures Effect(View(), poller.Plain(), queued) ==
              old(if !inLoopThread then Effect(SendTested(View()), poller.Plain(), false)
                  else if state == kConnected then Sent(View(), poller.Plain(), channel, msg, n, notify)
                  else Effect(View(), poller.Plain(), false))
    {
      queued, posted := false, false;
      if state == kConnected {
        if inLoopThread {
          queued := SendInLoop(msg, n);
        } else {
          posted, foreign := true, true;
        }
      }
    }

    method ShutdownInLoop()
      modifies this`calls
      ensures View() == old(HalfClosedInLoop(View()))
    {
      if !channel.IsWriting() {
        calls := calls + [ShutdownWrite];
      }
    }

    method Shutdown(inLoopThread: bool) returns (posted: bool)
      modifies this`state, this`calls, this`foreign
      ensures posted == (old(state) == kConnected && !inLoopThread)
      ensures View() == old(if inLoopThread then HalfClosed(View()) else ShutdownTested(View()))
    {
      posted := false;
      if state == kConnected {
        state := kDisconnecting;
        if inLoopThread {
          ShutdownInLoop();
        } else {
          posted, foreign := true, true;
        }
      }
    }

    method HandleWrite(n: nat) returns (queued: bool)
      requires Valid() && n <= |outputBuffer|
      modifies this, channel`events
      ensures Valid()
      ensures Effect(View(), poller.Plain(), queued) == old(Drained(View(), poller.Plain(), n, notify))
    {
      queued := false;
      if channel.IsWriting() {
        var leftMsgSz := |outputBuffer|;
        calls := calls + [Write(outputBuffer[..n])];
        outputBuffer := outputBuffer[n..];
        if n == leftMsgSz {
          channel.DisableWrite();
          if notify {
            queued := true;
            completions := completions + [AfterDrain(|outputBuffer|)];
          }
          if state == kDisconnecting {
            ShutdownInLoop();
          }
        }
      }
    }

    /** Bytes go to the message callback, behind what it has left; the end of the stream closes
        the connection; an error is only logged. */
    method HandleRead(r: ReadResult) returns (delivered: bool)
      requires Valid()
      requires r.EndOfStream? ==> CloseOk(View())
      modifies this, channel`events, channel`index, poller
      ensures Valid()
      ensures delivered == r.Data? && inputBuffer == old(inputBuffer) + (if r.Data? then r.bytes else "")
      ensures Effect(View(), poller.Plain(), false) ==
              old(if r.EndOfStream? then Closed(View(), poller.Plain(), channel)
                  else Effect(View(), poller.Plain(), false))
    {
      delivered := false;
      match r
      case Data(bytes) =>
        inputBuffer := inputBuffer + bytes;
        delivered := true;
      case EndOfStream =>
        HandleClose();
      case ReadError =>
    }

    method HandleClose()
      requires Valid() && CloseOk(View())
      modifies this, channel`events, channel`index, poller
      ensures Valid()
      ensures Effect(View(), poller.Plain(), false) == old(Closed(View(), poller.Plain(), channel))
      ensures inputBuffer == old(inputBuffer)
    {
      hide Update, Meaning, Bijective;
      state := kDisconnected;
      channel.DisableAll(poller);
      runs := runs.(closed := runs.closed + 1);
    }

    method ConnectionEstablished()
      requires Valid()
      modifies this, channel`events, channel`index, poller
      ensures Valid()
      ensures Effect(View(), poller.Plain(), false) == old(Established(View(), poller.Plain(), channel))
    {
      poller.ReadyMayUpdate(channel);
      hide Update, Meaning, Bijective;
      state := kConnected;
      runs := runs.(established := runs.established + 1);
      channel.EnableRead(poller);
    }

    /** The first half of `connectionDestryed`, for a connection that was never closed. */
    method Detach()
      requires Valid() && channel.index >= 0
      modifies this, channel`events, channel`index, poller
      ensures Valid() && poller.channels == old(poller.channels) && |poller.pollfds| == old(|poller.pollfds|)
      ensures Effect(View(), poller.Plain(), false) == old(Detached(View(), poller.Plain(), channel))
    {
      if state == kConnected {
        state := kDisconnected;
        channel.DisableAll(poller);
      }
    }

    method ConnectionDestroyed()
      requires Valid() && channel.index >= 0 && |poller.pollfds| > 0 && DestroyOk(View(), poller.Plain(), channel)
      modifies this, channel`events, channel`index, poller, poller.channels.Values`index
      ensures poller.Valid()
      ensures Effect(View(), poller.Plain(), false) == old(Destroyed(View(), poller.Plain(), channel))
    {
      hide Detached, Update, Meaning, Bijective;
      Detach();
      runs := runs.(destroyed := runs.destroyed + 1);
      channel.Remove(poller);
    }
  }
}
