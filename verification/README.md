# duduo in Dafny

duduo is a small TCP library in the Reactor style, together with a few protocol exercises. This
project models the parts that keep state across callbacks and threads, and proves what their
assertions and comments rely on. `dafny verify dfyconfig.toml` checks all of it.

| file | about |
|---|---|
| `PollTable.dfy` | `Poller` and `Channel`: the slot vector with swap-and-pop and `-fd-1` masking refines a plain map |
| `Connection.dfy`, `Stream.dfy` | `TcpConnection`: states, output buffer, write interest, half-close; what the stream keeps when other threads send and shut down |
| `Naming.dfy`, `Server.dfy` | connection names, `EventLoopThreadPool`, the connection map of `TcpServer` |
| `Lifecycle.dfy`, `LifecycleInv.dfy` | all loops of a server, all its connections and other threads at once, in any interleaving; the invariant |
| `LifecycleSafety.dfy`, `LifecycleDispatch.dfy`, `LifecycleFunctors.dfy`, `LifecycleRuns.dfy` | what holds of every run, of every dispatch, of every functor on its way, and the runs that go wrong |
| `TaskQueue.dfy` | the functor queue of one `EventLoop` and its eventfd |
| `Timers.dfy`, `TimerSafety.dfy` | `TimerQueue` and `Timer`, and every run of them |
| `TimingWheel.dfy` | the bucket ring of the idle-connection echo server |
| `LengthHeaderCodec.dfy` | framing under fragmentation |
| `CopyOnWrite.dfy`, `BlockingQueue.dfy` | the two shared-memory exercises |

## How it is built

An object whose methods update its fields is a class, and its methods are proved against functions
on values: `Poller` against `Update` and `Drop` on the map `Table`, `TcpConnection` against `Sent`,
`Drained`, `HalfClosed`, `Closed`, `Established` and `Destroyed` on `Conn`, `TimerQueue` against
`Created` and `Handled` on `Queue`, `EchoServer` against `Ticked`, `Connected` and `Active` on
`Wheel`, `OnMessage` against `Decode`. The methods of `EventLoop` and `SharedList` return the steps of
their state machine that they take, other threads' steps in between included. `TcpServer` moves its
map by the functions `Entered` and `Erased`, which the lifecycle machine uses as well. The main
theorems are about those functions over all runs. A run is a list of steps that is `Legal` from the
start state; nothing bounds its length, the number of loops, connections, threads or timers, or the
order of the steps.

`Lifecycle` runs the value functions of `Connection` on the tables of many loops. A step is one
branch of `Channel::handleEvents`, one functor, one call of user code, one move of a loop between
poll, dispatch and functor execution, or one thing another thread does: the test in `send` or
`shutdown`, and later the push of its functor. One such callback is a single step although loops run
in parallel, because a callback touches only what belongs to its own loop; all it does to another
loop is to push a functor, and it does that last. User code inside a callback is the steps
`UserSend`, `UserShutdown` and `PostUser`, which may happen at any point at which the loop is not at
poll, and so also where the source calls back. Each assertion of the source is a test that leads to
the world `Crashed` when it fails; the destructor's is met by the step `Free`.

What the outside may do is part of the steps: the kernel gives out no descriptor that is still open,
poll(2) reports unmasked slots with flags that were asked for or cannot be refused, write(2) takes any
number of the bytes offered, and a clock reading is any integer. A connection stays open as long as
the map or a functor holds a pointer to it.

## Where the code and its intention part

The model follows the code in each case. What was meant is false then, and the exact condition under
which it holds is proved, together with a run or an input where it fails.

- `wakeup` writes 0 (`duduo/net/Reactor/EventLoop.cc:105`), which adds nothing to an eventfd. The value is
  a parameter: `NoLostWakeupIff` shows that exactly the values from 1 on lose no wake-up.
- A functor queued by the loop's own thread before `loop()` is not announced. For every value from 1
  on, a run from construction loses no wake-up if and only if `loop()` is entered announced
  (`NeverLostIff`), which it is exactly unless its own thread has queued a functor before and no other
  thread has (`AnnouncedIff`). `PushBeforeLoopIsLost` is such a run.
- `send` on another thread tests the state and queues a functor that does not test it again, and
  `shutdown` moves the state on before its functor is queued. A run in which all closed connections
  were destroyed has failed an assertion exactly if such a `sendInLoop` left bytes for a closed
  connection, or the next case occurred (`CrashesIff`; the run `BytesForTheGone`). Nothing follows
  shutdownWrite on the socket exactly if no such functor makes a call after it (`FinIsLastIff`; the
  runs `WriteFollowsFin` and `SecondFinFollows`).
- POLLHUP without POLLIN but with POLLPRI or POLLRDHUP runs both the close and the read callback, and
  the second close fails its assertion exactly if the read finds the end of the stream
  (`DoubleCloseIff`; the run `ClosedTwice`).
- `disableWrite` does not update the poller (`duduo/net/Reactor/Channel.cc:60-62`); the extra calls of
  `handleWrite` do nothing (`StaleWriteIsHarmless`).
- `updateChannel` masks a slot and never unmasks it (`MaskingIsPermanent`).
- `removeChannel` leaves the channel's index. Whatever is registered afterwards, the removed channel
  passes the assertions of `updateChannel` exactly if its descriptor is registered again at the index
  it had (`RemovedChannelReturnsIff`), and then changes its successor's slot (`StaleUpdateHitsSuccessor`).
- An empty message sent while bytes are buffered announces a completed write
  (`PrematureWriteCompleteIff`).
- `send` of the codec accepts any size, `onMessage` only 65536 bytes: `MessageSurvivesIff`.
- `post_wrong_version1` changes a snapshot exactly if a reader holds the current list (`PushInPlaceIff`);
  `post_wrong_version2` keeps all posts exactly if each poster finds the list it has copied
  (`NothingIsLostIff`; the run `RacyLosesAPost`).
- `handleRead` of the timer queue never reads the timerfd, so it may be called again and again;
  the timer theorems hold for calls at any time and any number.

## Model

| member | source | states |
|---|---|---|
| LifecycleSafety.CrashesIff | duduo/net/Server/TcpServer.cc:56-85 | A run at whose end every closed connection has been destroyed has failed an assertion of TcpConnection, Channel, Poller or TcpServer if and only if in some step a sendInLoop functor of another thread left bytes for a closed connection, or the read callback found the end of a stream that the close callback of the same dispatch had closed |
| LifecycleSafety.NoRunCrashes | duduo/net/Server/TcpServer.cc:56-85 | Without such a step no assertion fails at any point of any run, whatever poll(2) reports and whatever other threads send and shut down, and the invariant holds |
| LifecycleSafety.ExactlyOnePhase | duduo/net/Server/TcpServer.cc:56-85 | In every run each connection shows, by its state, the map, all queues and its slot, exactly one of five phases, each with exactly its one pending functor; established, closed, erased and destroyed happen at most once each and in that order, and the object is freed only after all of them |
| LifecycleSafety.EveryStreamIsSound | duduo/net/Server/TcpConnection.cc:75-157 | In every run, for every connection: bytes written then bytes buffered are the messages the run has given to sendInLoop, in their order; while it is up write interest is on exactly when bytes are buffered, and only an empty message is announced as written over a non-empty buffer; the half-close is graceful if no other thread has called send or shutdown on it |
| LifecycleSafety.ShutdownIsRemembered | duduo/net/Server/TcpConnection.cc:144-149 | After shutdown of a connected connection, on its loop or on another thread, and whatever happens then: it is never connected again, and while it is up with an empty buffer its half-close has been made, if no other thread has called |
| LifecycleSafety.FinIsLastIff | duduo/net/Server/TcpConnection.cc:110-157 | In every run shutdownWrite is called at most once on a connection and no call follows it if and only if no functor of another thread makes a call on the socket after it |
| LifecycleSafety.RegisteredIsOwned | duduo/net/Server/TcpServer.cc:74-85 | A registered slot belongs to a connection of that loop which the map or exactly one pending destroy functor keeps alive |
| LifecycleDispatch.DispatchRunsTheCallbacks | duduo/net/Reactor/Channel.cc:28-44 | The close, read and write branches of the machine have together exactly the effect of the callbacks of the reported flags, run in their order, or fail the same assertion |
| LifecycleDispatch.DoubleCloseIff | duduo/net/Reactor/Channel.cc:28-44 | From the invariant, whatever flags are reported for a dispatched connection: its close branch fails no assertion, and its read branch does exactly for POLLHUP without POLLIN together with POLLPRI or POLLRDHUP when the read finds the end of the stream |
| LifecycleDispatch.SecondCloseCrashes | duduo/net/Server/TcpConnection.cc:101-108 | A second handleClose of a connection always fails its assertion |
| LifecycleDispatch.StaleWriteIsHarmless | duduo/net/Reactor/Channel.cc:40-42 | A write branch after a close in the same dispatch, or one caused by POLLOUT that disableWrite left in the slot, changes no connection |
| LifecycleDispatch.DispatchIsUndisturbed | duduo/net/Reactor/EventLoop.cc:60-67 | While a loop iterates its active channels, no step of any loop or thread removes one of its slots, changes a slot's owner, or destroys one of its connections |
| LifecycleFunctors.LateFunctorsRunOnce | duduo/net/Server/TcpConnection.cc:110-149 | In every run, a functor that another thread has decided to post after passing the test of send or shutdown has run exactly once for each such decision, save for those still on their way |
| LifecycleFunctors.CompletionIsPosted | duduo/net/Server/TcpConnection.cc:139-141 | sendInLoop puts a write-complete functor at the end of its loop's queue exactly when it records one |
| LifecycleFunctors.DrainCompletionIsPosted | duduo/net/Server/TcpConnection.cc:91-93 | So does handleWrite |
| LifecycleFunctors.ReportedAreDispatched | duduo/net/Reactor/EventLoop.cc:60-65 | Every descriptor that poll(2) reports is dispatched with its flags, as the live connection of this loop on it, and nothing else is |
| LifecycleFunctors.AcceptedOnItsLoop | duduo/net/Server/TcpServer.cc:56-72 | A new connection has the accepted descriptor and the loop picked, is entered under its name, and is established at once on the base loop or by the last functor of another |
| LifecycleFunctors.FreeClosesDescriptor | duduo/net/Server/TcpConnection.cc:30-34 | When the last pointer to a connection goes away its descriptor is closed, and no connection still open has it |
| LifecycleRuns.BytesForTheGone | duduo/net/Server/TcpConnection.cc:110-142 | A run from a fresh server: accept, establish, the test of send on another thread, close, erase, destroy, and then the functor, whose enableWrite fails the assertion of updateChannel |
| LifecycleRuns.WriteFollowsFin | duduo/net/Server/TcpConnection.cc:110-157 | A run from a fresh server: accept, establish, the test of send on another thread, shutdown on the loop, and then the functor, which writes a byte after shutdownWrite |
| LifecycleRuns.SecondFinFollows | duduo/net/Server/TcpConnection.cc:144-157 | A run from a fresh server: shutdown on another thread, the buffer drains and the half-close is made, and then the functor makes it again |
| LifecycleRuns.ClosedTwice | duduo/net/Reactor/Channel.cc:33-39 | A run from a fresh server in which POLLHUP with POLLPRI and the end of the stream fail the assertion of handleClose |
| LifecycleInv.StepKeeps | duduo/net/Reactor/EventLoop.cc:55-70 | From the invariant, every enabled step of every loop and thread either keeps it or is one of three named fatal cases and then fails an assertion |
| LifecycleInv.AcceptKeeps | duduo/net/Server/TcpServer.cc:56-72 | A new connection, established at once on the base loop or by a functor on another, keeps it |
| LifecycleInv.EstablishKeeps | duduo/net/Server/TcpConnection.cc:163-169 | The functor that establishes meets no failing assertion and leaves a live connection with an unmasked slot |
| LifecycleInv.CloseKeeps | duduo/net/Server/TcpConnection.cc:101-108 | Closing a live connection leaves a masked slot and one pending removal, or on the base loop removes at once |
| LifecycleInv.RemoveKeeps | duduo/net/Server/TcpServer.cc:78-85 | The erase finds exactly its entry and is followed by exactly one pending destroy functor on the connection's loop |
| LifecycleInv.DestroyKeeps | duduo/net/Server/TcpConnection.cc:171-178 | The destroy functor takes out its own slot only, and fails an assertion exactly if the channel asks for writing again |
| LifecycleInv.SendKeeps | duduo/net/Server/TcpConnection.cc:121-142 | sendInLoop, called or run as a functor at any time, fails an assertion exactly if its connection has been destroyed and bytes are left |
| LifecycleInv.UnownedIsGone | duduo/net/Server/TcpConnection.cc:30-34 | A connection to which neither the map nor any functor holds a pointer has been destroyed, so the destructor's assertion holds |
| LifecycleInv.RunningIsDue | duduo/net/Reactor/EventLoop.cc:139-151 | An establishing, erasing or destroying functor that runs is the one its connection is waiting for, on the loop it waits on |
| PollTable.Poller.UpdateChannel | duduo/net/Reactor/Poller.cc:16-39 | The slot vector, the map and the back-indices stay a bijection and mean the plain map after one Update |
| PollTable.Poller.RemoveChannel | duduo/net/Reactor/Poller.cc:41-71 | Swap-and-pop keeps the bijection and means dropping one descriptor; the removed channel keeps its index |
| PollTable.Poller.EraseSlot | duduo/net/Reactor/Poller.cc:60-70 | The slot is exchanged with the last one, which goes away |
| PollTable.Poller.FillActiveChannels | duduo/net/Reactor/Poller.cc:86-96 | With its early exit it lists the channels of the first activeNum reported slots, once each, in slot order, with their flags copied |
| PollTable.Poller.Poll | duduo/net/Reactor/Poller.cc:73-84 | With the number poll(2) returns, the active channels are exactly those of the reported slots, in strictly increasing slot order, and the table means what it meant |
| PollTable.FiredExact | duduo/net/Reactor/Poller.cc:86-96 | The list of reported slots holds exactly the slots with non-empty revents, in strictly increasing order |
| PollTable.MaskingIsPermanent | duduo/net/Reactor/Poller.cc:26-38 | After any sequence of updates a slot is masked exactly when it was before or one of the masks was empty, and no other slot has changed |
| PollTable.RemovedChannelReturnsIff | duduo/net/Reactor/Poller.cc:41-71 | Right after its removal a channel fails the assertions of updateChannel; after any later registrations, writes and removals it passes them exactly if its descriptor is known at the index it had |
| PollTable.RemovedChannelMeetsSuccessorIff | duduo/net/Reactor/Poller.cc:26-38 | If the descriptor is registered again at once, that is exactly if the removed channel had the last slot |
| PollTable.StaleUpdateHitsSuccessor | duduo/net/Reactor/Poller.cc:26-38 | Such an update changes the flags of the successor's slot, and masks it if the removed channel asks for nothing |
| PollTable.Poller.MayUpdateIff | duduo/net/Reactor/Poller.cc:26-32 | A channel with an index passes the assertions of updateChannel exactly if its descriptor is known at that index |
| PollTable.PushKeepsBijection | duduo/net/Reactor/Poller.cc:17-25 | A new slot at the end keeps the bijection and adds one watched descriptor to the meaning |
| PollTable.WriteKeepsBijection | duduo/net/Reactor/Poller.cc:26-38 | Writing one slot, masked when its flags are empty, keeps the bijection and changes one descriptor of the meaning |
| PollTable.RemovalKeepsOtherSlots | duduo/net/Reactor/Poller.cc:60-70 | Every other descriptor still finds the very same slot contents, although one slot has moved |
| PollTable.SwapAndPopKeepsBijection | duduo/net/Reactor/Poller.cc:41-71 | Removal keeps the bijection and forgets exactly one descriptor of the meaning |
| PollTable.AnsweringKeepsMeaning | duduo/net/Reactor/Poller.cc:73-84 | The answer of poll(2) in the slots changes neither the bijection nor the meaning |
| PollTable.Channel.EnableRead | duduo/net/Reactor/Channel.h:70-73 | The channel asks for reading, and the table is updated with the whole mask |
| PollTable.Channel.EnableWrite | duduo/net/Reactor/Channel.h:74-77 | The channel asks for writing, and the table is updated with the whole mask |
| PollTable.Channel.DisableAll | duduo/net/Reactor/Channel.cc:55-58 | The channel asks for nothing, and its slot is masked if it has one |
| PollTable.Channel.DisableWrite | duduo/net/Reactor/Channel.cc:60-62 | Only the channel's own mask loses POLLOUT; the poller is not told |
| PollTable.Channel.Remove | duduo/net/Reactor/Channel.cc:50-53 | Under its assertions the channel's descriptor leaves the table |
| Connection.SendConservesBytes | duduo/net/Server/TcpConnection.cc:121-142 | However many bytes write(2) takes, written then buffered grows by exactly the message |
| Connection.DrainConservesBytes | duduo/net/Server/TcpConnection.cc:75-99 | However many bytes write(2) takes, written then buffered stays the same |
| Connection.SendKeepsOutput | duduo/net/Server/TcpConnection.cc:110-142 | send on the loop's thread keeps conservation, the tie between write interest and buffer, and the half-close rules |
| Connection.DrainKeepsOutput | duduo/net/Server/TcpConnection.cc:75-99 | handleWrite keeps them in every state, the deferred half-close included |
| Connection.HalfCloseKeepsOutput | duduo/net/Server/TcpConnection.cc:144-157 | shutdown keeps them and accepts no bytes |
| Connection.ShutdownMovesOn | duduo/net/Server/TcpConnection.cc:144-157 | shutdown of a connected connection makes it disconnecting, and the half-close has then been made exactly if nothing is buffered |
| Connection.LastDrainHalfCloses | duduo/net/Server/TcpConnection.cc:94-96 | Otherwise the handleWrite that empties the buffer makes it, behind all accepted bytes |
| Connection.SendWritesDirectlyIff | duduo/net/Server/TcpConnection.cc:121-138 | While connected the socket is tried exactly when nothing is buffered, and only what it does not take is buffered; else the whole message is |
| Connection.SendCompletesIff | duduo/net/Server/TcpConnection.cc:133-141 | A write-complete functor is queued exactly when the callback is set and the message leaves nothing to buffer, and exactly then one announcement is recorded, with what is still buffered |
| Connection.DrainCompletesIff | duduo/net/Server/TcpConnection.cc:88-93 | For handleWrite: exactly when the callback is set and the last of the buffer was written |
| Connection.DestroyedWithoutClose | duduo/net/Server/TcpConnection.cc:171-178 | connectionDestryed of a connection that was never closed meets its assertions, disconnects it, empties its mask and takes its slot away |
| Connection.GracefulHalfClose | duduo/net/Server/TcpConnection.cc:144-157 | Wherever shutdownWrite stands in the history of calls it is the last one and the only one, and every accepted byte was written before it |
| Connection.PrematureWriteCompleteIff | duduo/net/Server/TcpConnection.cc:133-141 | send announces a completed write with bytes still buffered exactly for an empty message on a non-empty buffer |
| Connection.DrainCompletesOnEmpty | duduo/net/Server/TcpConnection.cc:88-93 | handleWrite announces a completed write exactly when it has emptied the buffer |
| Connection.LateSendKeepsFinLastIff | duduo/net/Server/TcpConnection.cc:121-142 | A sendInLoop functor, run in whatever state, keeps shutdownWrite the last call exactly if that was not called before |
| Connection.LateShutdownKeepsFinLastIff | duduo/net/Server/TcpConnection.cc:151-157 | So does a shutdownInLoop functor |
| Connection.LateSendFailsIff | duduo/net/Server/TcpConnection.cc:121-142 | A sendInLoop functor that runs after the close makes an assertion fail exactly when it leaves bytes to buffer: one of connectionDestryed if that is still to come, one of updateChannel itself if it is over |
| Connection.TcpConnection.SendInLoop | duduo/net/Server/TcpConnection.cc:121-142 | Object, channel, table and queued callback become what the value function says, at any time at which the assertions of updateChannel hold if it enables writing |
| Connection.TcpConnection.Send | duduo/net/Server/TcpConnection.cc:110-119 | While connected, sends on the loop's thread and posts a functor on another; in any other state does nothing |
| Connection.TcpConnection.ShutdownInLoop | duduo/net/Server/TcpConnection.cc:151-157 | shutdownWrite is called exactly when the channel does not ask for writing |
| Connection.TcpConnection.Shutdown | duduo/net/Server/TcpConnection.cc:144-149 | Only while connected: the state moves on, and the half-close is made or deferred on the loop's thread, or posted as a functor on another |
| Connection.TcpConnection.HandleRead | duduo/net/Server/TcpConnection.cc:56-73 | Bytes are appended and delivered, the end of the stream closes, an error changes nothing |
| Connection.TcpConnection.HandleWrite | duduo/net/Server/TcpConnection.cc:75-99 | Drains the buffer by what was taken; when empty, ends write interest, announces it and makes the deferred half-close; the table keeps POLLOUT |
| Connection.TcpConnection.HandleClose | duduo/net/Server/TcpConnection.cc:101-108 | Under its assertion the connection is disconnected and its slot masked |
| Connection.TcpConnection.ConnectionEstablished | duduo/net/Server/TcpConnection.cc:163-169 | The connection is connected and its slot asks for reading |
| Connection.TcpConnection.ConnectionDestroyed | duduo/net/Server/TcpConnection.cc:171-178 | Under the assertions it meets, the slot leaves the table, with or without a close before |
| Naming.DecimalInjective | duduo/net/Server/TcpServer.cc:59-59 | Different indices have different decimal texts |
| Naming.NamesDistinct | duduo/net/Server/TcpServer.cc:59-59 | Connections of one server never share a name |
| Naming.DecimalIsText | duduo/net/Server/TcpServer.cc:59-59 | The text of an index consists of decimal digits that stand for it, read from the left, without a leading zero |
| Server.AssignmentIsBalanced | duduo/net/Reactor/EventLoopThreadPool.cc:26-33 | After any number k of connections on n loops, each loop has received the quotient of k by n, and the first k mod n of the pool one more |
| Server.BaseLoopServesIff | duduo/net/Reactor/EventLoopThreadPool.cc:29-29 | The base loop receives all connections without threads, and none with threads |
| Server.EventLoopThreadPool.SetThreadNums | duduo/net/Reactor/EventLoopThreadPool.cc:21-24 | Before the start the count becomes the given one |
| Server.EventLoopThreadPool.Start | duduo/net/Reactor/EventLoopThreadPool.cc:35-49 | The pool holds the loops of all threads in order |
| Server.EventLoopThreadPool.GetNextLoop | duduo/net/Reactor/EventLoopThreadPool.cc:26-33 | The k-th call returns the k-th loop in turn, or the base loop without threads |
| Server.TcpServer.OnNewConnection | duduo/net/Server/TcpServer.cc:56-72 | The connection is registered under a name not in the map, for the loop whose turn it is |
| Server.TcpServer.RemoveConnectionInLoop | duduo/net/Server/TcpServer.cc:78-85 | One entry goes away exactly when the connection is registered, and no other connection's entry does |
| TaskQueue.NoLostWakeupIff | duduo/net/Reactor/EventLoop.cc:104-137 | For every value written: all runs from entry to loop() keep the queue announced while at poll exactly if the value is at least 1 |
| TaskQueue.WakeInvKept | duduo/net/Reactor/EventLoop.cc:126-151 | Over all interleavings, while at poll or inside a batch a non-empty queue comes with a readable eventfd or a thread about to write it |
| TaskQueue.ZeroLosesAWakeup | duduo/net/Reactor/EventLoop.cc:104-109 | A concrete run in which the 0 of the source leaves a functor queued beside a blocked loop |
| TaskQueue.ZeroNeverWakes | duduo/net/Reactor/EventLoop.cc:104-109 | With the 0 of the source the eventfd never becomes readable, in any run |
| TaskQueue.EventfdCounts | duduo/net/Reactor/EventLoop.cc:104-116 | In every run the eventfd holds the value written times the number of wake-ups since the last read, plus what it held if it was never read |
| TaskQueue.ReadSettles | duduo/net/Reactor/EventLoop.cc:111-116 | One read empties the eventfd, and in every run from there without a further wake-up it stays empty, so that poll(2) does not report it |
| TaskQueue.NeverLostIff | duduo/net/Reactor/EventLoop.cc:55-70 | For every value from 1 on and every run from construction: at no point an unannounced functor waits beside a blocked loop if and only if loop() was entered with an empty queue, a readable eventfd or a thread about to write it |
| TaskQueue.AnnouncedIff | duduo/net/Reactor/EventLoop.cc:126-137 | Before loop() that is the case exactly unless the loop's own thread has queued a functor and no other thread has |
| TaskQueue.PushBeforeLoopIsLost | duduo/net/Reactor/EventLoop.cc:131-136 | A run from construction that loses a wake-up whatever value is written: one functor queued by the loop's own thread, and then loop() |
| TaskQueue.FifoExactlyOnce | duduo/net/Reactor/EventLoop.cc:118-151 | In every run executed functors, rest of the batch and queue are together the history of pushes, in lock order |
| TaskQueue.BatchRunsExactly | duduo/net/Reactor/EventLoop.cc:139-151 | A call of executeQueueFunctions that ends has run exactly the functors present at its swap |
| TaskQueue.EventLoop.QueueInLoop | duduo/net/Reactor/EventLoop.cc:126-137 | A run of the machine that queues the functor; on another thread it ends with the wake-up, on the loop's thread it writes one only while functors are executed |
| TaskQueue.EventLoop.QueueFromOutside | duduo/net/Reactor/EventLoop.cc:126-137 | On another thread: a push and then a wake-up |
| TaskQueue.EventLoop.QueueFromInside | duduo/net/Reactor/EventLoop.cc:126-137 | On the loop's thread: a push, then whatever other threads do, and a wake-up if functors are executed |
| TaskQueue.EventLoop.RunInLoop | duduo/net/Reactor/EventLoop.cc:118-124 | On the loop's thread the functor is called at once; elsewhere it is queued and announced |
| TaskQueue.EventLoop.HandleRead | duduo/net/Reactor/EventLoop.cc:111-116 | Reading the eventfd is the draining step of the machine, and leaves it empty |
| TaskQueue.EventLoop.ExecuteQueueFunctions | duduo/net/Reactor/EventLoop.cc:139-151 | With other threads pushing at any moment: a run of the machine that executes exactly what is queued at the swap, in order, queues what these functors queue, even themselves, and leaves queued all that was pushed after the swap |
| TaskQueue.EventLoop.Turn | duduo/net/Reactor/EventLoop.cc:60-67 | With other threads pushing at any moment: one turn of loop is a run of the machine that executes all that was queued before it, during its dispatch and up to its swap, in order |
| Timers.TimespecIsExact | duduo/net/Reactor/TimerQueue.cc:13-24 | The programmed seconds and nanoseconds are exactly the clipped difference, normalised, and never the zero that disarms |
| Timers.MicrosIsExact | duduo/net/Reactor/Timer.cc:18-21 | A positive interval counts its whole microseconds, any other none |
| Timers.InsertedKeepsOrder | duduo/net/Reactor/TimerQueue.cc:97-105 | The set stays ordered, gains exactly the entry, and its first element is the new one exactly if it comes before the old first |
| Timers.ExpiredAreDue | duduo/net/Reactor/TimerQueue.cc:26-33 | getExpired takes out exactly the entries with expiration at most now |
| Timers.TimerQueue.AddTimerInLoop | duduo/net/Reactor/TimerQueue.cc:43-49 | The timer is in the set, and the timerfd is programmed for it exactly if it is the earliest |
| Timers.TimerQueue.AddTimer | duduo/net/Reactor/TimerQueue.cc:35-41 | A new object is created and scheduled |
| Timers.TimerQueue.Insert | duduo/net/Reactor/TimerQueue.cc:97-105 | The entry is keyed by the timer's expiration, and the result says whether it is the earliest |
| Timers.TimerQueue.GetExpired | duduo/net/Reactor/TimerQueue.cc:26-33 | The set is split at the lower bound of now and the last address |
| Timers.TimerQueue.HandleRead | duduo/net/Reactor/TimerQueue.cc:68-76 | All expired timers run, with the timers their callbacks add in between, then periodic ones are inserted again and the timerfd is programmed |
| Timers.TimerQueue.Reset | duduo/net/Reactor/TimerQueue.cc:78-95 | Periodic timers of the batch are restarted and inserted in order; the timerfd is programmed for the first entry if that is a valid time |
| Timers.TimerQueue.ResetTimerfd | duduo/net/Reactor/TimerQueue.cc:107-113 | The timerfd is programmed for the given expiration, from the time of the call |
| Timers.Timer.Restart | duduo/net/Reactor/Timer.cc:18-24 | A periodic timer expires one interval after the given time, a one-shot timer becomes invalid |
| TimerSafety.AlwaysArmed | duduo/net/Reactor/TimerQueue.cc:43-113 | In every run, spurious calls and timers added mid-batch included, a non-empty set with a valid first expiration has the timerfd programmed for it, or for 100 microseconds after arming if later |
| TimerSafety.NoTimerIsLost | duduo/net/Reactor/TimerQueue.cc:68-105 | In every run keys equal expirations, no timer has two entries, a periodic timer is always in the set and a one-shot timer exactly until it has run |
| TimerSafety.CallsAreTimely | duduo/net/Reactor/TimerQueue.cc:68-105 | In every run no timer runs before the time it was created for, one-shot timers run at most once, and two calls of a periodic timer are at least its interval apart |
| TimerSafety.HandleReadRunsTheDue | duduo/net/Reactor/TimerQueue.cc:68-76 | One handleRead calls exactly the timers due, in set order, and none of those added meanwhile |
| TimerSafety.EveryOrderIsServed | duduo/net/Reactor/TimerQueue.cc:35-95 | In every run, every timer ordered by addTimer or by a callback in the middle of a batch is there with its start, interval and repetition, and is in the set for ever if its interval is positive, else exactly until it has run |
| TimerSafety.HandleReadLeaves | duduo/net/Reactor/TimerQueue.cc:68-95 | After handleRead every timer added by a callback of the batch is there as ordered and in the set, every periodic timer of the batch is due again exactly one interval after now, and every other timer is as it was |
| TimerSafety.AddKeepsArmed | duduo/net/Reactor/TimerQueue.cc:43-49 | Adding a timer arms the timerfd for it, at that time, exactly if it expires before all others, and leaves it armed for the first |
| TimerSafety.HandleReadKeeps | duduo/net/Reactor/TimerQueue.cc:68-95 | handleRead keeps the invariant of the timers and arms the timerfd anew for the first |
| TimerSafety.RestartKeeps | duduo/net/Reactor/TimerQueue.cc:80-85 | Restarting one timer of the batch keeps conservation, order and spacing |
| TimingWheel.WheelIsLastActivity | testCase/time_wheel/echo_server.cc:18-75 | In every run the wheel agrees with a map computed from the steps alone, which notes the tick of each connection, and of each message less than the capacity later, as its last activity: an entry is alive exactly while fewer ticks than the capacity have passed since, its count is the number of buckets holding it, it dies once, on the tick that is the capacity after, and shuts down exactly the connections still up |
| TimingWheel.StepRefines | testCase/time_wheel/echo_server.cc:54-75 | Every tick, connection, message and disconnection of the wheel is that of the map |
| TimingWheel.MessageIsAnActivity | testCase/time_wheel/echo_server.cc:68-75 | A message puts a live entry into the newest bucket and makes this tick its last activity |
| TimingWheel.AliveIffRecent | testCase/time_wheel/echo_server.cc:54-56 | The reference count is positive exactly while fewer ticks than buckets have passed |
| TimingWheel.LastHolderIff | testCase/time_wheel/echo_server.cc:54-56 | The oldest bucket holds the last pointer to an entry exactly when the entry's last insertion was into it |
| TimingWheel.LateMessageRevivesNothing | testCase/time_wheel/echo_server.cc:68-75 | A message after expiry changes no entry and no holder of any connection |
| TimingWheel.StepKeeps | testCase/time_wheel/echo_server.cc:54-75 | Ticks, connections, messages and disconnections keep the invariant of the wheel |
| TimingWheel.EchoServer.DropBucket | testCase/time_wheel/echo_server.cc:21-26 | Destroying a bucket releases each of its pointers once, in any order; last ones run the destructor |
| TimingWheel.EchoServer.OnTime | testCase/time_wheel/echo_server.cc:54-56 | A new bucket comes, and the oldest goes if the ring is full |
| TimingWheel.EchoServer.OnConnection | testCase/time_wheel/echo_server.cc:58-67 | The new entry is held by the newest bucket and by nothing else once the local pointer is gone |
| TimingWheel.EchoServer.OnMessage | testCase/time_wheel/echo_server.cc:68-75 | A live entry is in the newest bucket afterwards, counted once per bucket; for a dead one a null pointer is |
| LengthHeaderCodec.RoundTrip | testCase/asio/LengthHeaderCodec.h:22-54 | For every list of messages of at most 65536 bytes and every cutting of their encodings, feeding the pieces one by one delivers exactly the list and leaves nothing |
| LengthHeaderCodec.FeedIsDecode | testCase/asio/LengthHeaderCodec.h:22-44 | For every stream, valid or not, the cutting changes neither the messages nor what is left over |
| LengthHeaderCodec.DecodeInTwo | testCase/asio/LengthHeaderCodec.h:22-44 | Decoding a stream is decoding its first part and then the leftover with the second |
| LengthHeaderCodec.DecodeInvertsEncode | testCase/asio/LengthHeaderCodec.h:22-54 | Decoding the encodings of a list gives back the list |
| LengthHeaderCodec.LeftoverIsPartOfOneFrame | testCase/asio/LengthHeaderCodec.h:35-36 | At every cut of a valid stream the messages before it were delivered, and the leftover is a proper prefix of the next frame |
| LengthHeaderCodec.MessageSurvivesIff | testCase/asio/LengthHeaderCodec.h:29-34 | A message of any size comes back exactly if it has at most 65536 bytes |
| LengthHeaderCodec.DecodingStopsIff | testCase/asio/LengthHeaderCodec.h:25-36 | Behind any valid frames a length that is negative or above 65536 stops the decoding with a shutdown and leaves header and rest, an incomplete frame stops it without one, and anything else is delivered |
| LengthHeaderCodec.HeaderIsNetworkOrder | testCase/asio/LengthHeaderCodec.h:46-54 | The header written stands for the length modulo 2^32 in network order, and the one read for the signed 32-bit number with that remainder |
| LengthHeaderCodec.PeekOfBytes4 | testCase/asio/LengthHeaderCodec.h:46-54 | Reading four bytes in network order gives back every 32-bit value written |
| LengthHeaderCodec.OnMessage | testCase/asio/LengthHeaderCodec.h:22-44 | The loop ends, delivers what Decode says in order, leaves its rest, and shuts down exactly for an invalid length |
| LengthHeaderCodec.Send | testCase/asio/LengthHeaderCodec.h:46-54 | The buffer is the encoding of the message, the length cast to 32 bits |
| CopyOnWrite.SnapshotsAreStable | testCase/post_and_traverse.cpp:8-26 | In every interleaving a list a reader holds exists and is what the reader took, a prefix of the posts; no post is lost; the copy is unique when it is pushed to |
| CopyOnWrite.StepKeeps | testCase/post_and_traverse.cpp:8-26 | Every step of readers and writers keeps the counts exact and the snapshots unchanged |
| CopyOnWrite.UniqueHasNoReader | testCase/post_and_traverse.cpp:21-25 | A unique pointer means that no reader holds the list |
| CopyOnWrite.NoListLeaks | testCase/post_and_traverse.cpp:8-26 | In every interleaving a list that exists is the shared one or held by a reader |
| CopyOnWrite.ReaderGetsThePosts | testCase/post_and_traverse.cpp:9-13 | A reader gets a list with all posts there are |
| CopyOnWrite.CopiesIff | testCase/post_and_traverse.cpp:21-24 | post copies the list exactly if a reader holds it |
| CopyOnWrite.PushInPlaceIff | testCase/post_and_traverse.cpp:29-32 | Pushing without the test leaves all snapshots as they are exactly if no reader holds the current list |
| CopyOnWrite.NothingIsLostIff | testCase/post_and_traverse.cpp:34-40 | In every run of posters that copy without the lock: the list is the posts in the order of the lock if and only if each of them finds the list its copy was made from; otherwise it is shorter |
| CopyOnWrite.RacyLosesAPost | testCase/post_and_traverse.cpp:34-40 | From any list, a run of two posters that loses the first one's item |
| CopyOnWrite.SharedList.Snapshot | testCase/post_and_traverse.cpp:9-13 | The step of the state machine: the reader gets the current list, counted once more |
| CopyOnWrite.SharedList.LetGo | testCase/post_and_traverse.cpp:14-17 | The step of the state machine: the reader's pointer goes away, and the list with the last one |
| CopyOnWrite.SharedList.CopyList | testCase/post_and_traverse.cpp:22-22 | The step of the state machine: a fresh list with the same items takes the place of the shared one, which loses a pointer |
| CopyOnWrite.SharedList.HeldIsSnapshot | testCase/post_and_traverse.cpp:14-16 | The object a reader holds has the items of its snapshot, a prefix of the posts |
| CopyOnWrite.SharedList.Post | testCase/post_and_traverse.cpp:19-26 | A run of the state machine, with readers that let go before the test, before the copy and before the push: the shared list has all posts and the item behind them, and no snapshot changes |
| BlockingQueue.NoStrandedConsumer | testCase/blockingQueue.cpp:5-22 | In every run, with barging and spurious wake-ups, while a consumer waits unsignalled there are at most as many items as signalled consumers; items leave in FIFO order |
| BlockingQueue.QueuedItemIsClaimed | testCase/blockingQueue.cpp:5-22 | An item queued while a consumer waits has a signalled consumer on its way |
| BlockingQueue.ReturnsIff | testCase/blockingQueue.cpp:5-16 | dequeue returns with the front item and leaves exactly if there is one, else it waits and takes nothing; other consumers are as they were |
| BlockingQueue.NotifyWakesOne | testCase/blockingQueue.cpp:18-22 | enqueue signals one waiting consumer if there is any, and no other |
| BlockingQueue.StepKeeps | testCase/blockingQueue.cpp:5-22 | Every critical section and every spurious wake-up keeps both |
| BlockingQueue.Queue.Enqueue | testCase/blockingQueue.cpp:18-22 | The item goes to the end, and the picked waiting consumer is signalled |
| BlockingQueue.Queue.Dequeue | testCase/blockingQueue.cpp:5-16 | The front is taken, or the consumer waits exactly if the queue is empty |

## Left out

- `Acceptor`, `Socket` and the thread start-up of `EventLoopThread`: system-call wrappers; accept, read, write and poll are any results that meet the assumptions above.
- The destructors of `TcpServer`, `EventLoop` and `TimerQueue`: the lifecycle theorems are about a server that lives on.
- Failing writes: `sendInLoop` asserts that write(2) does not fail, and `handleWrite` relies on it.
- `quit`, and the memory order of `quit_`, `state_` and the flag of `executeQueueFunctions`: the C++ memory model is not modelled. In `Lifecycle` the test in `send` and the test and assignment in `shutdown` are one step each when another thread makes them, so a close between the two halves of that assignment is not a run.
- Integer widths: descriptors, indices and the static `connectionIndex_` are unbounded; names repeat if that counter overflows. `connectionIndex_` is shared by all servers of a process, the model has one server. The codec's 32-bit length is modelled with its wrap-around.
- `EventLoopThreadPool::setThreadNums` after `start`: the model fixes the count before.
- `highWaterCallback_` and `inputBuffer_` in `Lifecycle`: no branch of the library reads them; what user code does with received bytes is the user's steps.
- The error callback of channels: no connection sets it.
- Poll timeouts and liveness: the theorems say what may not happen, none that something happens eventually.
- muduo's `Buffer`, `Timestamp` and logging, boost's ring and the containers of the standard library are not in the repository: byte sequences, integer microseconds, sequences, maps and sets stand for them. `addTime` adds the whole microseconds of an interval in seconds, which is a real number here and a double there.
- `TimerQueue::addTimer` from another thread: it arrives as a functor and is modelled at the time that functor runs. Deletion of one-shot timers is not modelled, since the source never deletes them before its destructor.
- Reactor timers, wake-up channel and listening socket in `Lifecycle`: they are other slots of the same tables and are never removed while loops run, so `Lifecycle` lists connections only.
- Connections of the timing wheel and their entries are the same number, since each connection creates one entry; a wheel of capacity zero has no bucket to insert into and no enabled insertion.
- `protocolDispatcher` headers, the echo, daytime, download and chat programs, the singleton, `CountDownLatch` and the inventory example: dispatch by message type, input and output demonstrations, and small utilities.
