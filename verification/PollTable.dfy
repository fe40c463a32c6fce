/** The poll table of one event loop: `Poller` and the `Channel`s registered with it.

    The table proper is a vector of `pollfd`, a map from descriptor to channel and a
    back-index kept inside every channel. Readers of the rest of the project only see
    the plain map `Table`, which `Poller` is proved to refine. */
module PollTable {

  /** The flags of poll(2). A bit mask is the set of flags whose bit is one. */
  datatype Flag = POLLIN | POLLPRI | POLLOUT | POLLERR | POLLHUP | POLLNVAL | POLLRDHUP

  type Mask = set<Flag>

  const NONE_EVENT: Mask := {}
  const READ_EVENT: Mask := {POLLIN, POLLPRI}
  const WRITE_EVENT: Mask := {POLLOUT}

  // ---------------------------------------------------------------- the plain map

  /** What is known of one registered descriptor: who registered it, the flags given to
      poll(2), and whether the slot is masked, so that poll(2) skips it. */
  datatype Watch<O> = Watch(owner: O, events: Mask, masked: bool)

  type Table<O> = map<int, Watch<O>>

  /** The assertions of `updateChannel`: a channel without an index is unknown, a channel
      with an index is known. */
  predicate UpdateOk<O>(t: Table<O>, fd: int, indexed: bool) {
    indexed <==> fd in t
  }

  /** A new channel is watched; a known one gets its new flags and stays masked for ever
      once its flags have been empty. */
  function Update<O>(t: Table<O>, owner: O, fd: int, events: Mask, indexed: bool): Table<O>
    requires UpdateOk(t, fd, indexed)
  {
    if indexed
    then t[fd := t[fd].(events := events, masked := t[fd].masked || events == NONE_EVENT)]
    else t[fd := Watch(owner, events, false)]
  }

  /** The assertions of `Channel::remove` and `removeChannel`. */
  predicate RemoveOk<O(==)>(t: Table<O>, owner: O, fd: int, events: Mask) {
    events == NONE_EVENT && fd in t && t[fd] == Watch(owner, events, true)
  }

  function Drop<O>(t: Table<O>, fd: int): Table<O> {
    t - {fd}
  }

  /** Any number of later updates of one known channel, with the given masks. */
  function UpdateAll<O>(t: Table<O>, owner: O, fd: int, masks: seq<Mask>): (r: Table<O>)
    requires UpdateOk(t, fd, true)
    ensures r.Keys == t.Keys
    decreases |masks|
  {
    if masks == [] then t else UpdateAll(Update(t, owner, fd, masks[0], true), owner, fd, masks[1..])
  }

  /** Interest that is enabled again does not unmask: after a sequence of updates the slot is
      masked exactly when it was before or one of the masks was empty. No other slot moves. */
  lemma {:induction false} MaskingIsPermanent<O>(t: Table<O>, owner: O, fd: int, masks: seq<Mask>)
    requires UpdateOk(t, fd, true)
    ensures UpdateAll(t, owner, fd, masks)[fd].masked <==> t[fd].masked || NONE_EVENT in masks
    ensures forall other :: other in t && other != fd ==> UpdateAll(t, owner, fd, masks)[other] == t[other]
    decreases |masks|
  {
    if masks != [] {
      var next := Update(t, owner, fd, masks[0], true);
      MaskingIsPermanent(next, owner, fd, masks[1..]);
      assert masks == [masks[0]] + masks[1..];
    }
  }

  // ---------------------------------------------------------------- the slots

  datatype PollFd = PollFd(fd: int, events: Mask, revents: Mask)

  /** `-fd-1`: negative, so that poll(2) ignores the slot, and its own inverse. */
  function Masked(fd: int): int {
    -fd - 1
  }

  /** The descriptor a slot stands for, masked or not. */
  function Plainly(raw: int): (fd: int)
    ensures fd >= 0 && (raw == fd || raw == Masked(fd))
  {
    if raw >= 0 then raw else Masked(raw)
  }

  /** The slots poll(2) has reported, in slot order. */
  function Fired(slots: seq<PollFd>): (r: seq<PollFd>)
    ensures |r| <= |slots|
  {
    if slots == [] then []
    else
      var last := slots[|slots| - 1];
      Fired(slots[..|slots| - 1]) + (if last.revents != {} then [last] else [])
  }

  lemma {:induction false} FiredPrefix(slots: seq<PollFd>, i: nat)
    requires i <= |slots|
    ensures Fired(slots[..i]) <= Fired(slots)
    decreases |slots| - i
  {
    if i == |slots| {
      assert slots[..i] == slots;
    } else {
      FiredPrefix(slots, i + 1);
      assert slots[..i + 1][..i] == slots[..i];
    }
  }

  lemma FiredStep(slots: seq<PollFd>, i: nat)
    requires i < |slots|
    ensures Fired(slots[..i + 1]) == Fired(slots[..i]) + (if slots[i].revents != {} then [slots[i]] else [])
  {
    assert slots[..i + 1][..i] == slots[..i];
  }

  /** What `Fired` lists: exactly the reported slots, and in strictly increasing order. */
  lemma {:induction false} FiredExact(slots: seq<PollFd>) returns (at: seq<nat>)
    ensures |at| == |Fired(slots)|
    ensures forall k :: 0 <= k < |at| ==> at[k] < |slots| && slots[at[k]] == Fired(slots)[k]
    ensures forall j, k :: 0 <= j < k < |at| ==> at[j] < at[k]
    ensures forall i :: 0 <= i < |slots| ==> (slots[i].revents != {} <==> i in at)
  {
    if slots == [] {
      at := [];
    } else {
      var n := |slots| - 1;
      var before := slots[..n];
      var rest := FiredExact(before);
      at := rest + (if slots[n].revents != {} then [n] else []);
      forall i | 0 <= i < |slots|
        ensures slots[i].revents != {} <==> i in at
      {
        if i < n {
          assert before[i] == slots[i];
        }
      }
    }
  }

  /** Which slot stands for which descriptor. */
  type Index = map<int, int>

  /** The table is a bijection: every known descriptor has the one slot that stands for it,
      masked or not, every slot stands for a known descriptor, and sizes agree. */
  ghost predicate Bijective(slots: seq<PollFd>, index: Index) {
    && |slots| == |index|
    && (forall fd :: fd in index ==> 0 <= index[fd] < |slots| && Plainly(slots[index[fd]].fd) == fd)
    && (forall i :: 0 <= i < |slots| ==> Plainly(slots[i].fd) in index && index[Plainly(slots[i].fd)] == i)
  }

  /** What a bijective table says of each descriptor. */
  ghost function Meaning<O>(slots: seq<PollFd>, index: Index, owners: map<int, O>): Table<O>
    requires Bijective(slots, index) && index.Keys == owners.Keys
  {
    map fd | fd in index :: Watch(owners[fd], slots[index[fd]].events, slots[index[fd]].fd < 0)
  }

  lemma PushKeepsBijection<O>(slots: seq<PollFd>, index: Index, owners: map<int, O>, fd: int, events: Mask, o: O)
    requires fd >= 0 && Bijective(slots, index) && index.Keys == owners.Keys && fd !in index
    ensures var slots' := slots + [PollFd(fd, events, {})];
            var index' := index[fd := |slots|];
            && Bijective(slots', index')
            && Meaning(slots', index', owners[fd := o]) == Update(Meaning(slots, index, owners), o, fd, events, false)
  {
    var slots' := slots + [PollFd(fd, events, {})];
    forall k | k in index
      ensures 0 <= index[k] < |slots| && slots'[index[k]] == slots[index[k]]
    {
    }
    assert Plainly(slots'[|slots|].fd) == fd;
  }

  lemma SlotOf(slots: seq<PollFd>, index: Index, fd: int)
    requires Bijective(slots, index) && fd in index
    ensures 0 <= index[fd] < |slots| && Plainly(slots[index[fd]].fd) == fd
  {
  }

  lemma OwnerOf(slots: seq<PollFd>, index: Index, i: nat)
    requires Bijective(slots, index) && i < |slots|
    ensures Plainly(slots[i].fd) in index && index[Plainly(slots[i].fd)] == i
  {
  }

  lemma LastSlot(slots: seq<PollFd>, index: Index)
    requires Bijective(slots, index) && |slots| > 0
    ensures Plainly(slots[|slots| - 1].fd) in index && index[Plainly(slots[|slots| - 1].fd)] == |slots| - 1
  {
  }

  lemma WriteKeepsBijection<O>(slots: seq<PollFd>, index: Index, owners: map<int, O>, fd: int, slot: PollFd, o: O)
    requires Bijective(slots, index) && index.Keys == owners.Keys && fd in index
    requires slot.fd == if slot.events == NONE_EVENT then Masked(fd) else slots[index[fd]].fd
    ensures var slots' := slots[index[fd] := slot];
            && Bijective(slots', index)
            && Meaning(slots', index, owners) == Update(Meaning(slots, index, owners), o, fd, slot.events, true)
  {
    var slots' := slots[index[fd] := slot];
    assert Plainly(slot.fd) == fd;
    forall i | 0 <= i < |slots'|
      ensures Plainly(slots'[i].fd) == Plainly(slots[i].fd)
    {
    }
    forall k | k in index
      ensures 0 <= index[k] < |slots'| && Plainly(slots'[index[k]].fd) == k
      ensures k != fd ==> slots'[index[k]] == slots[index[k]]
    {
      assert Plainly(slots[index[k]].fd) == k;
    }
  }

  /** Slot `i` is exchanged with the last one, which goes away. */
  function SwapAndPop(slots: seq<PollFd>, i: nat): seq<PollFd>
    requires i < |slots|
  {
    var n := |slots| - 1;
    if i == n then slots[..n] else slots[i := slots[n]][n := slots[i]][..n]
  }

  /** The back-indices after that: only the descriptor of the last slot moves. */
  function Reindexed(slots: seq<PollFd>, index: Index, fd: int): Index
    requires fd in index && 0 <= index[fd] < |slots|
  {
    var n := |slots| - 1;
    if index[fd] == n then index - {fd} else (index - {fd})[Plainly(slots[n].fd) := index[fd]]
  }

  /** What removal does to the back-indices, descriptor by descriptor. */
  lemma ReindexedAt(slots: seq<PollFd>, index: Index, fd: int)
    requires Bijective(slots, index) && fd in index
    ensures Reindexed(slots, index, fd).Keys == index.Keys - {fd}
    ensures forall k :: k in index && k != fd ==>
      Reindexed(slots, index, fd)[k] == if k == Plainly(slots[|slots| - 1].fd) then index[fd] else index[k]
  {
  }

  /** No other descriptor sees a different slot, although one slot has moved. */
  lemma RemovalKeepsOtherSlots(slots: seq<PollFd>, index: Index, fd: int, k: int)
    requires Bijective(slots, index) && fd in index && k in index && k != fd
    ensures var slots', index' := SwapAndPop(slots, index[fd]), Reindexed(slots, index, fd);
            k in index' && 0 <= index'[k] < |slots'| && slots'[index'[k]] == slots[index[k]]
  {
  }

  lemma RemovalKeepsBijection(slots: seq<PollFd>, index: Index, fd: int)
    requires Bijective(slots, index) && fd in index
    ensures Bijective(SwapAndPop(slots, index[fd]), Reindexed(slots, index, fd))
  {
    var slots', index' := SwapAndPop(slots, index[fd]), Reindexed(slots, index, fd);
    ReindexedAt(slots, index, fd);
    assert |index.Keys - {fd}| == |index.Keys| - 1;
    forall k | k in index'
      ensures 0 <= index'[k] < |slots'| && Plainly(slots'[index'[k]].fd) == k
    {
      RemovalKeepsOtherSlots(slots, index, fd, k);
    }
    forall i | 0 <= i < |slots'|
      ensures Plainly(slots'[i].fd) in index' && index'[Plainly(slots'[i].fd)] == i
    {
      assert slots'[i] == if i == index[fd] then slots[|slots| - 1] else slots[i];
    }
  }

  /** Swap-and-pop keeps the table a bijection and forgets one descriptor, nothing else. */
  lemma SwapAndPopKeepsBijection<O>(slots: seq<PollFd>, index: Index, owners: map<int, O>, fd: int)
    requires Bijective(slots, index) && index.Keys == owners.Keys && fd in index
    ensures var slots', index' := SwapAndPop(slots, index[fd]), Reindexed(slots, index, fd);
            && Bijective(slots', index') && index'.Keys == (owners - {fd}).Keys
            && Meaning(slots', index', owners - {fd}) == Drop(Meaning(slots, index, owners), fd)
  {
    RemovalKeepsBijection(slots, index, fd);
    ReindexedAt(slots, index, fd);
    hide Bijective, Reindexed, SwapAndPop;
    forall k | k in index && k != fd
      ensures SwapAndPop(slots, index[fd])[Reindexed(slots, index, fd)[k]] == slots[index[k]]
    {
      RemovalKeepsOtherSlots(slots, index, fd, k);
    }
  }

  // ---------------------------------------------------------------- removed channels

  /** A later change of the table: a new channel is registered, a known descriptor's slot is
      written, or a descriptor is removed. */
  datatype Change = Register(fd: int, events: Mask) | Rewrite(fd: int, events: Mask) | Unregister(fd: int)

  datatype Rows = Rows(slots: seq<PollFd>, index: Index)

  predicate ChangeOk(r: Rows, change: Change) {
    match change
    case Register(fd, _) => fd >= 0 && fd !in r.index
    case Rewrite(fd, _) => fd in r.index && 0 <= r.index[fd] < |r.slots|
    case Unregister(fd) => fd in r.index && 0 <= r.index[fd] < |r.slots|
  }

  function Changed(r: Rows, change: Change): Rows
    requires ChangeOk(r, change)
  {
    match change
    case Register(fd, events) => Rows(r.slots + [PollFd(fd, events, {})], r.index[fd := |r.slots|])
    case Rewrite(fd, events) =>
      var at := r.index[fd];
      var raw := if events == NONE_EVENT then Masked(fd) else r.slots[at].fd;
      r.(slots := r.slots[at := PollFd(raw, events, {})])
    case Unregister(fd) => Rows(SwapAndPop(r.slots, r.index[fd]), Reindexed(r.slots, r.index, fd))
  }

  predicate ChangesOk(r: Rows, changes: seq<Change>)
    decreases |changes|
  {
    changes == [] || (ChangeOk(r, changes[0]) && ChangesOk(Changed(r, changes[0]), changes[1..]))
  }

  function ChangedAll(r: Rows, changes: seq<Change>): Rows
    requires ChangesOk(r, changes)
    decreases |changes|
  {
    if changes == [] then r else ChangedAll(Changed(r, changes[0]), changes[1..])
  }

  lemma ChangeKeepsBijection(r: Rows, change: Change)
    requires Bijective(r.slots, r.index) && ChangeOk(r, change)
    ensures Bijective(Changed(r, change).slots, Changed(r, change).index)
  {
    var owners: map<int, int> := map fd | fd in r.index :: 0;
    hide Bijective, SwapAndPop, Reindexed;
    match change
    case Register(fd, events) => PushKeepsBijection(r.slots, r.index, owners, fd, events, 0);
    case Rewrite(fd, events) =>
      var slots' := Changed(r, change).slots;
      WriteKeepsBijection(r.slots, r.index, owners, fd, slots'[r.index[fd]], 0);
    case Unregister(fd) => RemovalKeepsBijection(r.slots, r.index, fd);
  }

  lemma {:induction false} ChangesKeepBijection(r: Rows, changes: seq<Change>)
    requires Bijective(r.slots, r.index) && ChangesOk(r, changes)
    ensures Bijective(ChangedAll(r, changes).slots, ChangedAll(r, changes).index)
    decreases |changes|
  {
    if changes != [] {
      ChangeKeepsBijection(r, changes[0]);
      hide Bijective;
      ChangesKeepBijection(Changed(r, changes[0]), changes[1..]);
    }
  }

  /** The assertions of `updateChannel` for a channel of descriptor `fd` whose `index_` is `at`. */
  predicate MeetsUpdate(r: Rows, fd: int, at: int) {
    fd in r.index && 0 <= at < |r.slots| && Plainly(r.slots[at].fd) == fd
  }

  /** `removeChannel` leaves the index of the channel as it is. Whatever is registered, written
      and removed afterwards, the removed channel passes the assertions of `updateChannel`
      exactly if somebody else has its descriptor, and at the slot it had. */
  lemma RemovedChannelReturnsIff(r: Rows, fd: int, later: seq<Change>)
    requires Bijective(r.slots, r.index) && ChangeOk(r, Unregister(fd))
    requires ChangesOk(Changed(r, Unregister(fd)), later)
    ensures !MeetsUpdate(Changed(r, Unregister(fd)), fd, r.index[fd])
    ensures var r' := ChangedAll(Changed(r, Unregister(fd)), later);
            MeetsUpdate(r', fd, r.index[fd]) <==> fd in r'.index && r'.index[fd] == r.index[fd]
  {
    ChangeKeepsBijection(r, Unregister(fd));
    ChangesKeepBijection(Changed(r, Unregister(fd)), later);
    ReindexedAt(r.slots, r.index, fd);
    hide Reindexed, SwapAndPop, ChangedAll, ChangesOk;
  }

  /** When the descriptor is registered again at once, that is if the channel had the last slot. */
  lemma RemovedChannelMeetsSuccessorIff(r: Rows, fd: int, events: Mask)
    requires Bijective(r.slots, r.index) && ChangeOk(r, Unregister(fd)) && fd >= 0
    ensures var later := [Register(fd, events)];
            && ChangesOk(Changed(r, Unregister(fd)), later)
            && (MeetsUpdate(ChangedAll(Changed(r, Unregister(fd)), later), fd, r.index[fd]) <==>
                r.index[fd] == |r.slots| - 1)
  {
    var later := [Register(fd, events)];
    var r1 := Changed(r, Unregister(fd));
    ReindexedAt(r.slots, r.index, fd);
    assert ChangeOk(r1, later[0]) && later[1..] == [];
    assert ChangedAll(r1, later) == ChangedAll(Changed(r1, later[0]), []);
    RemovedChannelReturnsIff(r, fd, later);
  }

  /** Such an update is taken for one of the successor: its flags are overwritten, it stays the
      owner, and if the removed channel asks for nothing its slot is masked. */
  lemma StaleUpdateHitsSuccessor<O>(t: Table<O>, stale: O, fd: int, events: Mask)
    requires UpdateOk(t, fd, true)
    ensures var w := Update(t, stale, fd, events, true)[fd];
            w.owner == t[fd].owner && w.events == events && (w.masked <==> t[fd].masked || events == NONE_EVENT)
  {
  }

  function Least(a: int, b: nat): nat {
    if a <= 0 then 0 else if a < b then a else b
  }

  /** The slots after poll(2) has written its answer into them. */
  function Answered(slots: seq<PollFd>, answer: seq<Mask>): (r: seq<PollFd>)
    requires |answer| == |slots|
    ensures |r| == |slots| && forall i :: 0 <= i < |r| ==> r[i] == slots[i].(revents := answer[i])
  {
    seq(|slots|, i requires 0 <= i < |slots| => slots[i].(revents := answer[i]))
  }

  lemma AnsweringKeepsMeaning<O>(slots: seq<PollFd>, index: Index, owners: map<int, O>, answer: seq<Mask>)
    requires Bijective(slots, index) && index.Keys == owners.Keys && |answer| == |slots|
    ensures Bijective(Answered(slots, answer), index)
    ensures Meaning(Answered(slots, answer), index, owners) == Meaning(slots, index, owners)
  {
    var slots' := Answered(slots, answer);
    assert forall i :: 0 <= i < |slots| ==> slots'[i].fd == slots[i].fd;
    forall fd | fd in index
      ensures 0 <= index[fd] < |slots'| && Plainly(slots'[index[fd]].fd) == fd
    {
      assert Plainly(slots[index[fd]].fd) == fd;
    }
  }

  class Channel {
    const fd: nat
    var events: Mask
    var revents: Mask
    var index: int
    var isHandling: bool

    constructor (fd: nat)
      ensures this.fd == fd && events == NONE_EVENT && revents == {} && index == -1 && !isHandling
    {
      this.fd := fd;
      events, revents, index, isHandling := NONE_EVENT, {}, -1, false;
    }

    predicate IsNoneEvent()
      reads this`events
    {
      events == NONE_EVENT
    }

    predicate IsWriting()
      reads this`events
    {
      POLLOUT in events
    }

    method EnableRead(poller: Poller)
      requires poller.Valid() && poller.MayUpdate(this)
      modifies this`events, this`index, poller
      ensures events == old(events) + READ_EVENT && index >= 0
      ensures poller.Valid() && (old(poller.Ready(this)) ==> poller.Ready(this))
      ensures poller.Plain() == Update(old(poller.Plain()), this, fd, events, old(index) >= 0)
    {
      events := events + READ_EVENT;
      poller.UpdateChannel(this);
    }

    method EnableWrite(poller: Poller)
      requires poller.Valid() && poller.MayUpdate(this)
      modifies this`events, this`index, poller
      ensures events == old(events) + WRITE_EVENT && index >= 0
      ensures poller.Valid() && (old(poller.Ready(this)) ==> poller.Ready(this))
      ensures poller.Plain() == Update(old(poller.Plain()), this, fd, events, old(index) >= 0)
    {
      events := events + WRITE_EVENT;
      poller.UpdateChannel(this);
    }

    method DisableAll(poller: Poller)
      requires poller.Valid() && poller.Ready(this)
      modifies this`events, this`index, poller
      ensures events == NONE_EVENT && index >= 0
      ensures old(index) >= 0 ==>
        index == old(index) && poller.channels == old(poller.channels) && |poller.pollfds| == old(|poller.pollfds|)
      ensures poller.Valid() && poller.Ready(this)
      ensures poller.Plain() == Update(old(poller.Plain()), this, fd, NONE_EVENT, old(index) >= 0)
    {
      events := NONE_EVENT;
      poller.ReadyMayUpdate(this);
      poller.UpdateChannel(this);
    }

    /** Only the channel forgets about writing: the slot keeps POLLOUT until the next update. */
    method DisableWrite()
      modifies this`events
      ensures events == old(events) - WRITE_EVENT
    {
      events := events - WRITE_EVENT;
    }

    method Remove(poller: Poller)
      requires poller.Valid() && |poller.pollfds| > 0 && RemoveOk(poller.Plain(), this, fd, events)
      modifies poller, {poller.LastChannel()}`index
      ensures poller.Valid() && index == old(index)
      ensures poller.Plain() == Drop(old(poller.Plain()), fd)
    {
      poller.RemoveChannel(this);
    }

    /** The callbacks run for the flags found in `revents`, in order. The error callback of a
        connection is never set. */
    method HandleEvents() returns (run: seq<Callback>)
      modifies this`isHandling
      ensures run == Callbacks(revents) && !isHandling
    {
      isHandling := true;
      run := [];
      if POLLNVAL in revents || POLLERR in revents {
        run := run + [ErrorCallback];
      }
      if POLLHUP in revents && POLLIN !in revents {
        run := run + [CloseCallback];
      }
      if POLLIN in revents || POLLPRI in revents || POLLRDHUP in revents {
        run := run + [ReadCallback];
      }
      if POLLOUT in revents {
        run := run + [WriteCallback];
      }
      isHandling := false;
    }
  }

  datatype Callback = ErrorCallback | CloseCallback | ReadCallback | WriteCallback

  predicate ClosesFirst(revents: Mask) {
    POLLHUP in revents && POLLIN !in revents
  }

  predicate Reads(revents: Mask) {
    POLLIN in revents || POLLPRI in revents || POLLRDHUP in revents
  }

  function Callbacks(revents: Mask): seq<Callback> {
    (if POLLNVAL in revents || POLLERR in revents then [ErrorCallback] else []) +
    (if ClosesFirst(revents) then [CloseCallback] else []) +
    (if Reads(revents) then [ReadCallback] else []) +
    (if POLLOUT in revents then [WriteCallback] else [])
  }

  /** The flags that call for a callback. */
  predicate CallsFor(revents: Mask, cb: Callback) {
    match cb
    case ErrorCallback => POLLNVAL in revents || POLLERR in revents
    case CloseCallback => ClosesFirst(revents)
    case ReadCallback => Reads(revents)
    case WriteCallback => POLLOUT in revents
  }

  /** The place of a callback in a dispatch. */
  function Rank(cb: Callback): nat {
    match cb
    case ErrorCallback => 0
    case CloseCallback => 1
    case ReadCallback => 2
    case WriteCallback => 3
  }

  /** The callbacks of a set of flags: those it calls for, once each, in this order. */
  lemma CallbacksExact(revents: Mask)
    ensures forall cb :: cb in Callbacks(revents) <==> CallsFor(revents, cb)
    ensures var run := Callbacks(revents); forall j, k :: 0 <= j < k < |run| ==> Rank(run[j]) < Rank(run[k])
  {
  }

  class Poller {
    var pollfds: seq<PollFd>
    var channels: map<int, Channel>

    ghost var index: Index  // the back-indices of the known channels

    constructor ()
      ensures Valid() && Plain() == map[]
    {
      pollfds, channels, index := [], map[], map[];
    }

    /** The back-index of every known channel is kept in that channel. */
    ghost predicate Linked()
      reads this`channels, this`index, channels.Values`index
    {
      && index.Keys == channels.Keys
      && (forall fd :: fd in channels ==> channels[fd].fd == fd && channels[fd].index == index[fd])
    }

    ghost predicate Valid()
      reads this, channels.Values`index
    {
      Bijective(pollfds, index) && Linked()
    }

    ghost function Plain(): (t: Table<Channel>)
      requires Valid()
      reads this, channels.Values`index
    {
      Meaning(pollfds, index, channels)
    }

    /** The assertions of `updateChannel`, together with the range its subscript needs. */
    ghost predicate MayUpdate(ch: Channel)
      reads this, ch`index
    {
      if ch.index < 0 then ch.fd !in channels
      else ch.fd in channels && ch.index < |pollfds| && Plainly(pollfds[ch.index].fd) == ch.fd
    }

    /** The channel is new, or it is the one known for its descriptor. */
    ghost predicate Ready(ch: Channel)
      reads this, ch`index
    {
      if ch.index < 0 then ch.fd !in channels else ch.fd in channels && channels[ch.fd] == ch
    }

    lemma ReadyMayUpdate(ch: Channel)
      requires Valid() && Ready(ch)
      ensures MayUpdate(ch) && UpdateOk(Plain(), ch.fd, ch.index >= 0)
    {
    }

    method UpdateChannel(ch: Channel)
      requires Valid() && MayUpdate(ch)
      modifies this, ch`index
      ensures Valid() && ch.index >= 0 && (old(Ready(ch)) ==> Ready(ch))
      ensures old(ch.index) < 0 ==> channels == old(channels)[ch.fd := ch]
      ensures old(ch.index) >= 0 ==>
        ch.index == old(ch.index) && channels == old(channels) && |pollfds| == old(|pollfds|)
      ensures Plain() == Update(old(Plain()), ch, ch.fd, ch.events, old(ch.index) >= 0)
      ensures ch.index < |pollfds| && pollfds[ch.index].events == ch.events && pollfds[ch.index].revents == {}
    {
      if ch.index < 0 {
        AddSlot(ch);
      } else {
        WriteSlot(ch);
      }
    }

    method AddSlot(ch: Channel)
      requires Valid() && ch.index < 0 && ch.fd !in channels
      modifies this, ch`index
      ensures Valid() && ch.index >= 0 && channels == old(channels)[ch.fd := ch]
      ensures Plain() == Update(old(Plain()), ch, ch.fd, ch.events, false)
      ensures pollfds == old(pollfds) + [PollFd(ch.fd, ch.events, {})] && ch.index == |old(pollfds)|
    {
      PushKeepsBijection(pollfds, index, channels, ch.fd, ch.events, ch);
      hide Bijective, Meaning, Update;
      pollfds := pollfds + [PollFd(ch.fd, ch.events, {})];
      channels := channels[ch.fd := ch];
      ch.index := |pollfds| - 1;
      index := index[ch.fd := ch.index];
    }

    method WriteSlot(ch: Channel)
      requires Valid() && ch.index >= 0 && MayUpdate(ch)
      modifies this`pollfds
      ensures Valid() && |pollfds| == old(|pollfds|)
      ensures Plain() == Update(old(Plain()), ch, ch.fd, ch.events, true)
      ensures ch.index < |pollfds| && pollfds[ch.index].events == ch.events && pollfds[ch.index].revents == {}
    {
      ghost var slots := pollfds;
      MayUpdateIff(ch);
      pollfds := pollfds[ch.index := pollfds[ch.index].(events := ch.events, revents := {})];
      if ch.IsNoneEvent() {
        pollfds := pollfds[ch.index := pollfds[ch.index].(fd := Masked(ch.fd))];
      }
      ghost var slot := pollfds[ch.index];
      hide Bijective, Meaning, Update, Linked;
      assert pollfds == slots[ch.index := slot];
      assert index.Keys == channels.Keys by { LinkedKeys(); }
      WriteKeepsBijection(slots, index, channels, ch.fd, slot, ch);
    }

    lemma LinkedKeys()
      requires Linked()
      ensures index.Keys == channels.Keys
    {
    }

    /** A channel with an index passes exactly if its descriptor is known at that index, be it
        the channel known for it or not. */
    lemma MayUpdateIff(ch: Channel)
      requires Valid() && ch.index >= 0
      ensures MayUpdate(ch) <==> ch.fd in index && index[ch.fd] == ch.index
    {
    }

    /** The channel of the last slot, the one that moves. */
    ghost function LastChannel(): (ch: Channel)
      requires Valid() && |pollfds| > 0
      reads this, channels.Values`index
      ensures ch in channels.Values
    {
      channels[Plainly(pollfds[|pollfds| - 1].fd)]
    }

    method RemoveChannel(ch: Channel)
      requires Valid() && |pollfds| > 0 && RemoveOk(Plain(), ch, ch.fd, ch.events)
      modifies this, {LastChannel()}`index
      ensures Valid() && ch.index == old(ch.index)
      ensures Plain() == Drop(old(Plain()), ch.fd)
    {
      var at := ch.index;
      Known(ch);
      hide Bijective, Meaning, Reindexed, SwapAndPop, Linked, RemoveOk, Drop;
      SwapAndPopKeepsBijection(pollfds, index, channels, ch.fd);
      Unlink(ch);
      EraseSlot(at);
    }

    lemma Known(ch: Channel)
      requires Valid() && RemoveOk(Plain(), ch, ch.fd, ch.events)
      ensures ch.fd in channels && channels[ch.fd] == ch && index.Keys == channels.Keys
      ensures ch.fd in index && 0 <= index[ch.fd] == ch.index < |pollfds|
    {
    }

    /** The channel is forgotten, and the channel of the last slot gets its index. */
    method Unlink(ch: Channel)
      requires Valid() && |pollfds| > 0 && ch.fd in channels && channels[ch.fd] == ch
      modifies this`channels, this`index, {LastChannel()}`index
      ensures Linked() && index.Keys == channels.Keys
      ensures ch.index == old(ch.index) && channels == old(channels) - {ch.fd}
      ensures ch.fd in old(index) && 0 <= old(index)[ch.fd] < |pollfds|
      ensures index == Reindexed(pollfds, old(index), ch.fd)
    {
      var at, n := ch.index, |pollfds| - 1;
      SlotOf(pollfds, index, ch.fd);
      LastSlot(pollfds, index);
      ReindexedAt(pollfds, index, ch.fd);
      hide Bijective, Reindexed;
      channels := channels - {ch.fd};
      index := Reindexed(pollfds, index, ch.fd);
      if at < n {
        var endFd := pollfds[n].fd;
        if endFd < 0 {
          endFd := Masked(endFd);
        }
        channels[endFd].index := at;
      }
    }

    /** The slot at `at` is exchanged with the last one and popped. */
    method EraseSlot(at: nat)
      requires at < |pollfds|
      modifies this`pollfds
      ensures pollfds == SwapAndPop(old(pollfds), at)
    {
      var n := |pollfds| - 1;
      if at != n {
        pollfds := pollfds[at := pollfds[n]][n := pollfds[at]];
      }
      pollfds := pollfds[..n];
    }

    /** poll(2) has filled `revents`; `activeNum` is the number it returned. The first
        `activeNum` reported channels are listed in slot order, with their flags copied. */
    method FillActiveChannels(activeNum: int) returns (active: seq<Channel>)
      requires Valid()
      requires forall i :: 0 <= i < |pollfds| && pollfds[i].revents != {} ==> pollfds[i].fd >= 0
      modifies channels.Values`revents
      ensures Valid()
      ensures |active| == Least(activeNum, |Fired(pollfds)|)
      ensures forall k :: 0 <= k < |active| ==> Reports(active[k], Fired(pollfds)[k])
      ensures forall j, k :: 0 <= j < k < |active| ==> active[j].index < active[k].index
    {
      active := [];
      var left := activeNum;
      hide Bijective, Fired, Listed;
      Unlisted();
      for i := 0 to |pollfds|
        invariant Listed(active, Fired(pollfds[..i]), i)
        invariant left == activeNum - |active| && (left >= 0 || active == [])
      {
        if left <= 0 {
          ListedAt(active, i, i);
          return;
        }
        FiredStep(pollfds, i);
        if pollfds[i].revents != {} {
          left := left - 1;
          active := Report(active, Fired(pollfds[..i]), i);
        } else {
          ListedAt(active, i, i + 1);
          assert Fired(pollfds[..i + 1]) == Fired(pollfds[..i]);
        }
      }
      ListedAt(active, |pollfds|, |pollfds|);
      assert pollfds[..|pollfds|] == pollfds;
    }

    lemma Unlisted()
      ensures Listed([], Fired(pollfds[..0]), 0)
    {
    }

    lemma ListedAt(active: seq<Channel>, i: nat, bound: nat)
      requires i <= |pollfds| && i <= bound && Listed(active, Fired(pollfds[..i]), i)
      ensures |active| == |Fired(pollfds[..i])| <= |Fired(pollfds)|
      ensures forall k :: 0 <= k < |active| ==> Reports(active[k], Fired(pollfds)[k])
      ensures forall j, k :: 0 <= j < k < |active| ==> active[j].index < active[k].index
      ensures Listed(active, Fired(pollfds[..i]), bound)
    {
      FiredPrefix(pollfds, i);
      hide Fired;
    }

    /** The channels `active` are those of the slots `fired`, which lie below slot `bound`. */
    ghost predicate Listed(active: seq<Channel>, fired: seq<PollFd>, bound: int)
      reads this, active
    {
      && |active| == |fired|
      && (forall k :: 0 <= k < |active| ==> Reports(active[k], fired[k]) && active[k].index < bound)
      && (forall j, k :: 0 <= j < k < |active| ==> active[j].index < active[k].index)
    }

    /** The flags of slot `i` are copied to its channel, which is listed next. */
    method Report(active: seq<Channel>, ghost fired: seq<PollFd>, i: nat) returns (more: seq<Channel>)
      requires Valid() && i < |pollfds| && pollfds[i].fd >= 0 && Listed(active, fired, i)
      modifies channels.Values`revents
      ensures |more| == |active| + 1 && Listed(more, fired + [pollfds[i]], i + 1)
    {
      OwnerOf(pollfds, index, i);
      hide Bijective;
      var ch := channels[pollfds[i].fd];
      ch.revents := pollfds[i].revents;
      more := active + [ch];
    }

    /** `ch` is the channel of a reported slot and has its flags. */
    ghost predicate Reports(ch: Channel, slot: PollFd)
      reads this, ch`revents
    {
      slot.fd in channels && channels[slot.fd] == ch && ch.revents == slot.revents
    }

    /** One call of poll(2), whose answer for each slot is given. It reports no masked slot,
        and only flags that were asked for or cannot be refused. The active channels are
        exactly those of the reported slots, once each and in slot order. */
    method Poll(answer: seq<Mask>) returns (active: seq<Channel>)
      requires Valid()
      requires |answer| == |pollfds|
      requires forall i :: 0 <= i < |answer| ==>
        && (pollfds[i].fd < 0 ==> answer[i] == {})
        && answer[i] <= pollfds[i].events + {POLLERR, POLLHUP, POLLNVAL}
      modifies this`pollfds, channels.Values`revents
      ensures Valid() && Plain() == old(Plain())
      ensures pollfds == Answered(old(pollfds), answer)
      ensures |active| == |Fired(pollfds)|
      ensures forall k :: 0 <= k < |active| ==> Reports(active[k], Fired(pollfds)[k])
      ensures forall j, k :: 0 <= j < k < |active| ==> active[j].index < active[k].index
    {
      AnsweringKeepsMeaning(pollfds, index, channels, answer);
      hide Bijective, Meaning;
      pollfds := Answered(pollfds, answer);
      active := FillActiveChannels(|Fired(pollfds)|);
    }
  }
}
