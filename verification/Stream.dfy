/** The output stream of a connection when other threads send and shut down as well, so that
    their functors run at any later time: what every run keeps nevertheless, and exactly when
    a call follows shutdownWrite. */
module Stream {
  import opened PollTable
  import opened Connection

  /** Only an empty message is announced as written while bytes are buffered. */
  ghost predicate CompletionsOk(completions: seq<Completion>) {
    forall i :: 0 <= i < |completions| ==>
      completions[i].left > 0 ==> completions[i].AfterSend? && completions[i].msg == ""
  }

  /** What the half-close keeps although functors of other threads may come late. */
  ghost predicate FinInv(c: Conn) {
    && (c.state == kConnecting ==> c.calls == [])
    && (c.state == kConnected ==> FinIsLast(c.calls) && !FinSent(c))
    && (c.state == kDisconnecting && FinIsLast(c.calls) && FinSent(c) ==> c.outbuf == "")
  }

  predicate InterestInv(c: Conn) {
    && (IsWriting(c) ==> c.outbuf != "")
    && (c.outbuf != "" && CloseOk(c) ==> IsWriting(c))
    && (c.state == kConnecting ==> c.outbuf == "")
  }

  ghost predicate StreamInv(c: Conn) {
    Conserved(c) && FinInv(c) && InterestInv(c) && CompletionsOk(c.completions) && (!c.foreign ==> Gated(c))
  }

  // ---------------------------------------------------------------- sendInLoop

  /** By itself, or as the functor of another thread, in any state but the first. */
  lemma SendKeepsStream<O>(c: Conn, t: Table<O>, owner: O, msg: string, n: nat, notify: bool)
    requires StreamInv(c) && n <= |msg| && SendOk(c, t, msg, n)
    requires c.state == kConnected || (c.foreign && c.state != kConnecting)
    ensures StreamInv(Sent(c, t, owner, msg, n, notify).conn)
  {
    SendConservesBytes(c, t, owner, msg, n, notify);
    SendKeepsFin(c, t, owner, msg, n, notify);
    SendKeepsInterest(c, t, owner, msg, n, notify);
    if !c.foreign {
      SendKeepsGates(c, t, owner, msg, n, notify);
    }
    hide Conserved, Gated, FinInv, InterestInv, CompletionsOk;
  }

  lemma SendKeepsFin<O>(c: Conn, t: Table<O>, owner: O, msg: string, n: nat, notify: bool)
    requires FinInv(c) && InterestInv(c) && n <= |msg| && SendOk(c, t, msg, n) && c.state != kConnecting
    ensures FinInv(Sent(c, t, owner, msg, n, notify).conn)
  {
    FinAppend(c.calls, Write(msg[..n]));
    SentParts(c, t, owner, msg, n, notify);
    SentRest(c, t, owner, msg, n, notify);
    hide FinIsLast, Sent;
  }

  lemma SendKeepsInterest<O>(c: Conn, t: Table<O>, owner: O, msg: string, n: nat, notify: bool)
    requires InterestInv(c) && CompletionsOk(c.completions)
    requires n <= |msg| && SendOk(c, t, msg, n) && c.state != kConnecting
    ensures InterestInv(Sent(c, t, owner, msg, n, notify).conn)
    ensures CompletionsOk(Sent(c, t, owner, msg, n, notify).conn.completions)
  {
  }

  // ---------------------------------------------------------------- handleWrite

  lemma DrainKeepsStream<O>(c: Conn, t: Table<O>, n: nat, notify: bool)
    requires StreamInv(c) && n <= |c.outbuf| && (CloseOk(c) || !IsWriting(c))
    ensures StreamInv(Drained(c, t, n, notify).conn)
  {
    DrainConservesBytes(c, t, n, notify);
    DrainKeepsFin(c, t, n, notify);
    DrainKeepsInterest(c, t, n, notify);
    if !c.foreign {
      DrainKeepsGates(c, t, n, notify);
    }
    hide Conserved, Gated, FinInv, InterestInv, CompletionsOk;
  }

  lemma DrainKeepsFin<O>(c: Conn, t: Table<O>, n: nat, notify: bool)
    requires FinInv(c) && InterestInv(c) && n <= |c.outbuf|
    ensures FinInv(Drained(c, t, n, notify).conn)
  {
    FinAppend(c.calls, Write(c.outbuf[..n]));
    FinAppend(c.calls + [Write(c.outbuf[..n])], ShutdownWrite);
    hide FinIsLast;
  }

  lemma DrainKeepsInterest<O>(c: Conn, t: Table<O>, n: nat, notify: bool)
    requires InterestInv(c) && CompletionsOk(c.completions) && n <= |c.outbuf| && (CloseOk(c) || !IsWriting(c))
    ensures InterestInv(Drained(c, t, n, notify).conn)
    ensures CompletionsOk(Drained(c, t, n, notify).conn.completions)
  {
  }

  // ---------------------------------------------------------------- shutdown

  /** On the loop's thread. */
  lemma HalfCloseKeepsStream(c: Conn)
    requires StreamInv(c)
    ensures StreamInv(HalfClosed(c))
  {
    WrittenAppend(c.calls, ShutdownWrite);
    FinAppend(c.calls, ShutdownWrite);
    hide FinIsLast, Written;
  }

  /** As the functor of another thread, which has moved the state on before. */
  lemma LateShutdownKeepsStream(c: Conn)
    requires StreamInv(c) && c.foreign && (c.state == kDisconnecting || c.state == kDisconnected)
    ensures StreamInv(HalfClosedInLoop(c))
  {
    WrittenAppend(c.calls, ShutdownWrite);
    FinAppend(c.calls, ShutdownWrite);
    hide FinIsLast, Written;
  }

  /** What other threads do before they post. */
  lemma TestsKeepStream(c: Conn)
    requires StreamInv(c)
    ensures StreamInv(SendTested(c)) && StreamInv(ShutdownTested(c))
  {
    hide FinIsLast, Written;
  }

  // ---------------------------------------------------------------- the end

  lemma EstablishKeepsStream<O>(c: Conn, t: Table<O>, owner: O)
    requires StreamInv(c) && c.state == kConnecting && UpdateOk(t, c.fd, c.indexed)
    ensures StreamInv(Established(c, t, owner).conn)
  {
    hide Written;
  }

  lemma RunsKeepStream(c: Conn, runs: Runs)
    requires StreamInv(c)
    ensures StreamInv(c.(runs := runs))
  {
    hide FinIsLast, Written;
  }

  lemma FreedKeepsStream(c: Conn)
    requires StreamInv(c)
    ensures StreamInv(c.(freed := true))
  {
    hide FinIsLast, Written;
  }

  lemma CloseKeepsStream<O>(c: Conn, t: Table<O>, owner: O)
    requires StreamInv(c) && CloseOk(c) && UpdateOk(t, c.fd, c.indexed)
    ensures StreamInv(Closed(c, t, owner).conn)
  {
    hide FinIsLast, Written;
  }

  // ---------------------------------------------------------------- calls after the half-close

  /** The functors that other threads post. */
  datatype Late = LateSend | LateShutdown

  /** The functor makes a call on the socket, after shutdownWrite. */
  predicate FollowsFin(c: Conn, late: Late) {
    FinSent(c) && if late.LateSend? then WritesDirectly(c) else !IsWriting(c)
  }

  lemma SendFinIff<O>(c: Conn, t: Table<O>, owner: O, msg: string, n: nat, notify: bool)
    requires n <= |msg| && SendOk(c, t, msg, n)
    ensures FinIsLast(Sent(c, t, owner, msg, n, notify).conn.calls) <==> FinIsLast(c.calls) && !FollowsFin(c, LateSend)
  {
    FinAppend(c.calls, Write(msg[..n]));
    hide FinIsLast;
  }

  lemma LateShutdownFinIff(c: Conn)
    ensures FinIsLast(HalfClosedInLoop(c).calls) <==> FinIsLast(c.calls) && !FollowsFin(c, LateShutdown)
  {
    FinAppend(c.calls, ShutdownWrite);
    hide FinIsLast;
  }

  /** Nothing the loop does on its own makes a call after shutdownWrite. */
  lemma DrainFinIff<O>(c: Conn, t: Table<O>, n: nat, notify: bool)
    requires FinInv(c) && InterestInv(c) && n <= |c.outbuf| && (CloseOk(c) || !IsWriting(c))
    ensures FinIsLast(Drained(c, t, n, notify).conn.calls) <==> FinIsLast(c.calls)
  {
    FinAppend(c.calls, Write(c.outbuf[..n]));
    FinAppend(c.calls + [Write(c.outbuf[..n])], ShutdownWrite);
    hide FinIsLast;
  }

  lemma HalfCloseFinIff(c: Conn)
    requires FinInv(c)
    ensures FinIsLast(HalfClosed(c).calls) <==> FinIsLast(c.calls)
  {
    FinAppend(c.calls, ShutdownWrite);
    hide FinIsLast;
  }
}
