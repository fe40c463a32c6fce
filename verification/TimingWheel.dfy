/** The timing wheel of the echo server: a ring of buckets that hold shared pointers to entries.
    A tick pushes an empty bucket and drops the oldest; an entry whose last pointer goes away
    shuts its connection down. */
module TimingWheel {

  /** What `WeakEntryPtr::lock` returns: null once the entry is gone. */
  datatype Ptr = Null | Ptr(conn: nat)

  type Bucket = set<Ptr>

  /** The entry of one connection: how many shared pointers to it exist, the tick of its last
      insertion, and the ticks at which its destructor ran and called `shutdown`. */
  datatype Entry = Entry(refs: nat, last: nat, deaths: seq<nat>, shutdowns: seq<nat>)

  datatype Wheel = Wheel(
    capacity: nat,
    buckets: seq<Bucket>,       // oldest first
    entries: map<nat, Entry>,   // by connection
    connected: set<nat>,        // the connections whose weak pointers still lock
    ticks: nat)

  // ---------------------------------------------------------------- the operations

  /** An entry when the bucket that is dropped at `tick` did or did not hold it. */
  function Released(e: Entry, held: bool, tick: nat, connected: bool): Entry {
    if !held || e.refs == 0 then e
    else if e.refs > 1 then e.(refs := e.refs - 1)
    else e.(refs := 0, deaths := e.deaths + [tick], shutdowns := e.shutdowns + (if connected then [tick] else []))
  }

  /** All entries when `bucket` is dropped at `tick`. */
  function Dropped(entries: map<nat, Entry>, bucket: Bucket, tick: nat, connected: set<nat>): map<nat, Entry> {
    map c | c in entries :: Released(entries[c], Ptr(c) in bucket, tick, c in connected)
  }

  /** `onTime`: `push_back` on a circular buffer, which overwrites the front when it is full and
      does nothing when the capacity is zero. */
  function Ticked(w: Wheel): Wheel {
    if w.capacity == 0 then w.(ticks := w.ticks + 1)
    else if |w.buckets| < w.capacity then w.(buckets := w.buckets + [{}], ticks := w.ticks + 1)
    else if w.buckets == [] then w.(ticks := w.ticks + 1)
    else w.(buckets := w.buckets[1..] + [{}],
            entries := Dropped(w.entries, w.buckets[0], w.ticks + 1, w.connected),
            ticks := w.ticks + 1)
  }

  function WithBack(w: Wheel, p: Ptr): Wheel
    requires w.buckets != []
  {
    var n := |w.buckets| - 1;
    w.(buckets := w.buckets[n := w.buckets[n] + {p}])
  }

  /** `onConnection` of a connection that is up. */
  function Connected(w: Wheel, c: nat): Wheel
    requires w.buckets != [] && c !in w.entries
  {
    WithBack(w, Ptr(c)).(entries := w.entries[c := Entry(1, w.ticks, [], [])], connected := w.connected + {c})
  }

  /** `onMessage`: the entry is put into the newest bucket, or a null pointer is. */
  function Active(w: Wheel, c: nat): Wheel
    requires w.buckets != [] && c in w.entries
  {
    var e := w.entries[c];
    if e.refs == 0 then WithBack(w, Null)
    else
      var refs := if Ptr(c) in w.buckets[|w.buckets| - 1] then e.refs else e.refs + 1;
      WithBack(w, Ptr(c)).(entries := w.entries[c := e.(refs := refs, last := w.ticks)])
  }

  /** The connection object goes away; its entry stays where it is. */
  function Disconnected(w: Wheel, c: nat): Wheel {
    w.(connected := w.connected - {c})
  }

  datatype Step = OnTime | OnConnection(c: nat) | OnMessage(c: nat) | Disconnect(c: nat)

  /** Connections come after the first tick, since `back()` of an empty buffer is undefined, and
      messages come for connections that are up. */
  predicate Enabled(w: Wheel, step: Step) {
    match step
    case OnTime => true
    case OnConnection(c) => w.buckets != [] && c !in w.entries
    case OnMessage(c) => w.buckets != [] && c in w.entries && c in w.connected
    case Disconnect(c) => c in w.connected
  }

  function Apply(w: Wheel, step: Step): Wheel
    requires Enabled(w, step)
  {
    match step
    case OnTime => Ticked(w)
    case OnConnection(c) => Connected(w, c)
    case OnMessage(c) => Active(w, c)
    case Disconnect(c) => Disconnected(w, c)
  }

  predicate Legal(w: Wheel, steps: seq<Step>)
    decreases |steps|
  {
    steps == [] || (Enabled(w, steps[0]) && Legal(Apply(w, steps[0]), steps[1..]))
  }

  function Exec(w: Wheel, steps: seq<Step>): Wheel
    requires Legal(w, steps)
    decreases |steps|
  {
    if steps == [] then w else Exec(Apply(w, steps[0]), steps[1..])
  }

  // ---------------------------------------------------------------- counting the holders

  /** How many buckets hold the entry of connection `c`. */
  function Holders(buckets: seq<Bucket>, c: nat): nat {
    if buckets == [] then 0 else (if Ptr(c) in buckets[0] then 1 else 0) + Holders(buckets[1..], c)
  }

  lemma {:induction false} HoldersAppend(a: seq<Bucket>, b: seq<Bucket>, c: nat)
    ensures Holders(a + b, c) == Holders(a, c) + Holders(b, c)
  {
    if a == [] {
      assert a + b == b;
    } else {
      assert (a + b)[0] == a[0] && (a + b)[1..] == a[1..] + b;
      HoldersAppend(a[1..], b, c);
    }
  }

  lemma {:induction false} HoldersZeroIff(buckets: seq<Bucket>, c: nat)
    ensures Holders(buckets, c) == 0 <==> forall i :: 0 <= i < |buckets| ==> Ptr(c) !in buckets[i]
  {
    if buckets != [] {
      HoldersZeroIff(buckets[1..], c);
      assert forall i :: 1 <= i < |buckets| ==> buckets[i] == buckets[1..][i - 1];
      if forall i :: 0 <= i < |buckets| ==> Ptr(c) !in buckets[i] {
        assert Ptr(c) !in buckets[0];
      }
    }
  }

  lemma HoldersOfBack(w: Wheel, p: Ptr, c: nat)
    requires w.buckets != []
    ensures var back := w.buckets[|w.buckets| - 1];
            Holders(WithBack(w, p).buckets, c) ==
            Holders(w.buckets, c) + (if p == Ptr(c) && p !in back then 1 else 0)
  {
    var n := |w.buckets| - 1;
    assert w.buckets == w.buckets[..n] + [w.buckets[n]];
    assert WithBack(w, p).buckets == w.buckets[..n] + [w.buckets[n] + {p}];
    HoldersAppend(w.buckets[..n], [w.buckets[n]], c);
    HoldersAppend(w.buckets[..n], [w.buckets[n] + {p}], c);
    HoldersOfOne(w.buckets[n], c);
    HoldersOfOne(w.buckets[n] + {p}, c);
  }

  lemma HoldersOfOne(b: Bucket, c: nat)
    ensures Holders([b], c) == if Ptr(c) in b then 1 else 0
  {
  }

  // ---------------------------------------------------------------- the invariant

  /** The tick that pushed bucket `i`. */
  function TickOf(w: Wheel, i: nat): int {
    w.ticks - |w.buckets| + 1 + i
  }

  ghost predicate BucketsInv(w: Wheel) {
    && w.capacity >= 1 && |w.buckets| == (if w.ticks < w.capacity then w.ticks else w.capacity)
    && (forall i, c :: 0 <= i < |w.buckets| && Ptr(c) in w.buckets[i] ==>
          c in w.entries && TickOf(w, i) <= w.entries[c].last)
  }

  /** One entry against the wheel: counted right, in the bucket of its last insertion as long as
      that bucket is there, and dead since exactly `capacity` ticks after it. */
  ghost predicate EntryInv(w: Wheel, c: nat, e: Entry) {
    && 1 <= e.last <= w.ticks
    && e.refs == Holders(w.buckets, c)
    && (TickOf(w, 0) <= e.last ==> e.last - TickOf(w, 0) < |w.buckets| && Ptr(c) in w.buckets[e.last - TickOf(w, 0)])
    && e.deaths == (if w.ticks < e.last + w.capacity then [] else [e.last + w.capacity])
    && (c in w.connected ==> e.shutdowns == e.deaths)
    && (e.shutdowns == e.deaths || e.shutdowns == [])
  }

  ghost predicate WheelInv(w: Wheel) {
    BucketsInv(w) && forall c :: c in w.entries ==> EntryInv(w, c, w.entries[c])
  }

  /** The reference count is positive exactly while fewer than `capacity` ticks have passed. */
  lemma AliveIffRecent(w: Wheel, c: nat)
    requires WheelInv(w) && c in w.entries
    ensures w.entries[c].refs > 0 <==> w.ticks - w.entries[c].last < w.capacity
  {
    var e := w.entries[c];
    assert EntryInv(w, c, e);
    HoldersZeroIff(w.buckets, c);
  }

  // ---------------------------------------------------------------- every step keeps it

  lemma BackKeepsBuckets(w: Wheel, p: Ptr, entries: map<nat, Entry>)
    requires BucketsInv(w) && w.buckets != []
    requires forall c :: c in w.entries ==> c in entries && entries[c].last >= w.entries[c].last
    requires p == Null || (p.conn in entries && entries[p.conn].last == w.ticks)
    ensures BucketsInv(WithBack(w, p).(entries := entries))
  {
  }

  /** Entry `d`, when a pointer to something else is put into the newest bucket. */
  lemma BackKeepsOther(w: Wheel, p: Ptr, entries: map<nat, Entry>, connected: set<nat>, d: nat, e: Entry)
    requires w.buckets != [] && EntryInv(w, d, e) && p != Ptr(d) && (d in connected <==> d in w.connected)
    ensures EntryInv(WithBack(w, p).(entries := entries, connected := connected), d, e)
  {
    HoldersOfBack(w, p, d);
    hide Holders;
  }

  /** Entry `c`, when a pointer to it is put there. */
  lemma BackHolds(w: Wheel, entries: map<nat, Entry>, connected: set<nat>, c: nat, refs: nat)
    requires BucketsInv(w) && w.buckets != []
    requires refs == Holders(w.buckets, c) + (if Ptr(c) in w.buckets[|w.buckets| - 1] then 0 else 1)
    ensures EntryInv(WithBack(w, Ptr(c)).(entries := entries, connected := connected), c, Entry(refs, w.ticks, [], []))
  {
    HoldersOfBack(w, Ptr(c), c);
    hide Holders;
  }

  lemma ConnectedKeeps(w: Wheel, c: nat)
    requires WheelInv(w) && w.buckets != [] && c !in w.entries
    ensures WheelInv(Connected(w, c))
  {
    var w' := Connected(w, c);
    NewHasNoHolder(w, c);
    BackKeepsBuckets(w, Ptr(c), w'.entries);
    hide BucketsInv, EntryInv, Holders;
    BackHolds(w, w'.entries, w'.connected, c, 1);
    forall d | d in w.entries
      ensures EntryInv(w', d, w.entries[d])
    {
      BackKeepsOther(w, Ptr(c), w'.entries, w'.connected, d, w.entries[d]);
    }
  }

  lemma NewHasNoHolder(w: Wheel, c: nat)
    requires BucketsInv(w) && c !in w.entries
    ensures Holders(w.buckets, c) == 0 && forall i :: 0 <= i < |w.buckets| ==> Ptr(c) !in w.buckets[i]
  {
    HoldersZeroIff(w.buckets, c);
  }

  lemma ActiveKeeps(w: Wheel, c: nat)
    requires WheelInv(w) && w.buckets != [] && c in w.entries
    ensures WheelInv(Active(w, c))
  {
    var w' := Active(w, c);
    var e, p := w.entries[c], if w.entries[c].refs == 0 then Null else Ptr(c);
    assert EntryInv(w, c, e);
    BackKeepsBuckets(w, p, w'.entries);
    if e.refs > 0 {
      AliveIffRecent(w, c);
      BackHolds(w, w'.entries, w.connected, c, w'.entries[c].refs);
    } else {
      BackKeepsOther(w, p, w'.entries, w.connected, c, e);
    }
    forall d | d in w.entries && d != c
      ensures EntryInv(w', d, w.entries[d])
    {
      assert EntryInv(w, d, w.entries[d]);
      BackKeepsOther(w, p, w'.entries, w.connected, d, w.entries[d]);
    }
    hide BucketsInv, EntryInv;
  }

  /** A tick that fills the ring further. */
  lemma GrowKeeps(w: Wheel)
    requires WheelInv(w) && |w.buckets| < w.capacity
    ensures WheelInv(Ticked(w))
  {
    var w' := Ticked(w);
    forall c | c in w'.entries
      ensures EntryInv(w', c, w'.entries[c])
    {
      assert EntryInv(w, c, w.entries[c]);
      HoldersAppend(w.buckets, [{}], c);
      HoldersOfOne({}, c);
    }
  }

  /** A tick that drops the oldest bucket: its entries lose one holder, and those whose last
      insertion was into it lose their only one. */
  lemma DropKeepsHolders(w: Wheel, c: nat)
    requires BucketsInv(w) && |w.buckets| == w.capacity
    ensures Holders(Ticked(w).buckets, c) == Holders(w.buckets, c) - (if Ptr(c) in w.buckets[0] then 1 else 0)
  {
    HoldersAppend(w.buckets[1..], [{}], c);
    HoldersOfOne({}, c);
  }

  /** Whether the oldest bucket holds the last pointer is a matter of the last activity. */
  lemma LastHolderIff(w: Wheel, c: nat)
    requires WheelInv(w) && |w.buckets| == w.capacity && c in w.entries
    ensures Ptr(c) in w.buckets[0] && w.entries[c].refs == 1 <==> w.entries[c].last == TickOf(w, 0)
    ensures w.entries[c].last < TickOf(w, 0) ==> w.entries[c].refs == 0
  {
    var e, rest := w.entries[c], w.buckets[1..];
    assert EntryInv(w, c, e);
    HoldersZeroIff(rest, c);
    HoldersZeroIff(w.buckets, c);
    assert Holders(w.buckets, c) == (if Ptr(c) in w.buckets[0] then 1 else 0) + Holders(rest, c);
    hide Holders;
    assert forall i :: 0 <= i < |rest| ==> rest[i] == w.buckets[i + 1];
    if e.last > TickOf(w, 0) {
      assert Ptr(c) in rest[e.last - TickOf(w, 0) - 1];
    }
  }

  lemma DropKeepsEntry(w: Wheel, c: nat)
    requires WheelInv(w) && |w.buckets| == w.capacity && c in w.entries
    ensures EntryInv(Ticked(w), c, Ticked(w).entries[c])
  {
    assert EntryInv(w, c, w.entries[c]);
    LastHolderIff(w, c);
    DropKeepsHolders(w, c);
    hide WheelInv, Holders;
  }

  lemma DropKeeps(w: Wheel)
    requires WheelInv(w) && |w.buckets| == w.capacity
    ensures WheelInv(Ticked(w))
  {
    var w' := Ticked(w);
    forall c | c in w'.entries
      ensures EntryInv(w', c, w'.entries[c])
    {
      DropKeepsEntry(w, c);
    }
    hide EntryInv, Holders;
    forall i, c | 0 <= i < |w'.buckets| && Ptr(c) in w'.buckets[i]
      ensures c in w'.entries && TickOf(w', i) <= w'.entries[c].last
    {
      assert w'.buckets[i] == w.buckets[i + 1];
    }
  }

  lemma StepKeeps(w: Wheel, step: Step)
    requires WheelInv(w) && Enabled(w, step)
    ensures WheelInv(Apply(w, step))
  {
    match step
    case OnTime => if |w.buckets| < w.capacity { GrowKeeps(w); } else { DropKeeps(w); }
    case OnConnection(c) => ConnectedKeeps(w, c);
    case OnMessage(c) => ActiveKeeps(w, c);
    case Disconnect(c) =>
      var w' := Disconnected(w, c);
      forall d | d in w'.entries
        ensures EntryInv(w', d, w'.entries[d])
      {
        assert EntryInv(w, d, w.entries[d]);
      }
  }

  lemma {:induction false} ExecKeeps(w: Wheel, steps: seq<Step>)
    requires WheelInv(w) && Legal(w, steps)
    ensures WheelInv(Exec(w, steps))
    decreases |steps|
  {
    if steps != [] {
      StepKeeps(w, steps[0]);
      ExecKeeps(Apply(w, steps[0]), steps[1..]);
    }
  }

  function Empty(capacity: nat): Wheel {
    Wheel(capacity, [], map[], {}, 0)
  }

  // ---------------------------------------------------------------- the map it refines

  /** What the wheel is for, without buckets and counts: the tick of every connection's last
      activity, which connections are up, and when each was shut down. */
  datatype Activity = Activity(ticks: nat, last: map<nat, nat>, up: set<nat>, shutdowns: map<nat, seq<nat>>)

  /** A tick shuts down the connections that are up and were last active `capacity` ticks ago. A
      message is an activity unless that many ticks have passed before. */
  function Noted(a: Activity, capacity: nat, step: Step): Activity {
    match step
    case OnTime =>
      var now := a.ticks + 1;
      a.(ticks := now,
         shutdowns := map c | c in a.shutdowns ::
           if c in a.up && c in a.last && a.last[c] + capacity == now then a.shutdowns[c] + [now] else a.shutdowns[c])
    case OnConnection(c) =>
      a.(last := a.last[c := a.ticks], up := a.up + {c}, shutdowns := a.shutdowns[c := []])
    case OnMessage(c) =>
      if c in a.last && a.ticks - a.last[c] < capacity then a.(last := a.last[c := a.ticks]) else a
    case Disconnect(c) => a.(up := a.up - {c})
  }

  /** All of it computed from the steps of a run alone. */
  function NotedAll(a: Activity, capacity: nat, steps: seq<Step>): Activity
    decreases |steps|
  {
    if steps == [] then a else NotedAll(Noted(a, capacity, steps[0]), capacity, steps[1..])
  }

  const QUIET := Activity(0, map[], {}, map[])

  /** The wheel, with buckets and counts forgotten. */
  function Seen(w: Wheel): Activity {
    Activity(w.ticks, map c | c in w.entries :: w.entries[c].last, w.connected,
             map c | c in w.entries :: w.entries[c].shutdowns)
  }

  lemma TickEntry(w: Wheel, c: nat)
    requires WheelInv(w) && c in w.entries
    ensures var e, e', now := w.entries[c], Ticked(w).entries[c], w.ticks + 1;
            && e'.last == e.last
            && e'.shutdowns ==
               if c in w.connected && e.last + w.capacity == now then e.shutdowns + [now] else e.shutdowns
  {
    assert EntryInv(w, c, w.entries[c]);
    if |w.buckets| == w.capacity {
      LastHolderIff(w, c);
    }
    hide WheelInv, Holders;
  }

  lemma SeenParts(w: Wheel)
    ensures var a := Seen(w);
            && a.ticks == w.ticks && a.up == w.connected && a.last.Keys == a.shutdowns.Keys == w.entries.Keys
            && forall c :: c in w.entries ==> a.last[c] == w.entries[c].last && a.shutdowns[c] == w.entries[c].shutdowns
  {
  }

  /** Two activities with the same parts. */
  lemma SameActivity(a: Activity, b: Activity)
    requires a.ticks == b.ticks && a.up == b.up && a.last.Keys == b.last.Keys && a.shutdowns.Keys == b.shutdowns.Keys
    requires forall c :: c in a.last ==> a.last[c] == b.last[c]
    requires forall c :: c in a.shutdowns ==> a.shutdowns[c] == b.shutdowns[c]
    ensures a == b
  {
    assert a.last == b.last && a.shutdowns == b.shutdowns;
  }

  lemma NotedTick(a: Activity, capacity: nat)
    ensures var b, now := Noted(a, capacity, OnTime), a.ticks + 1;
            && b.ticks == now && b.last == a.last && b.up == a.up && b.shutdowns.Keys == a.shutdowns.Keys
            && forall c :: c in a.shutdowns ==>
                 b.shutdowns[c] ==
                 if c in a.up && c in a.last && a.last[c] + capacity == now then a.shutdowns[c] + [now]
                 else a.shutdowns[c]
  {
  }

  lemma TickedParts(w: Wheel)
    ensures Ticked(w).entries.Keys == w.entries.Keys && Ticked(w).ticks == w.ticks + 1
    ensures Ticked(w).connected == w.connected
  {
  }

  lemma TickRefines(w: Wheel)
    requires WheelInv(w)
    ensures Seen(Ticked(w)) == Noted(Seen(w), w.capacity, OnTime)
  {
    hide WheelInv, Ticked, Seen, Noted;
    TickedParts(w);
    SeenParts(w);
    SeenParts(Ticked(w));
    NotedTick(Seen(w), w.capacity);
    forall c | c in w.entries
      ensures Seen(Ticked(w)).last[c] == Seen(w).last[c]
      ensures Seen(Ticked(w)).shutdowns[c] == Noted(Seen(w), w.capacity, OnTime).shutdowns[c]
    {
      TickEntry(w, c);
    }
    SameActivity(Seen(Ticked(w)), Noted(Seen(w), w.capacity, OnTime));
  }

  lemma ActiveParts(w: Wheel, c: nat)
    requires w.buckets != [] && c in w.entries
    ensures var w', e := Active(w, c), w.entries[c];
            && w'.ticks == w.ticks && w'.connected == w.connected && w'.entries.Keys == w.entries.Keys
            && w'.entries[c].last == (if e.refs > 0 then w.ticks else e.last) && w'.entries[c].shutdowns == e.shutdowns
            && forall d :: d in w.entries && d != c ==> w'.entries[d] == w.entries[d]
  {
  }

  lemma NotedMessage(a: Activity, capacity: nat, c: nat)
    requires c in a.last
    ensures var b := Noted(a, capacity, OnMessage(c));
            && b.ticks == a.ticks && b.up == a.up && b.shutdowns == a.shutdowns && b.last.Keys == a.last.Keys
            && b.last[c] == (if a.ticks - a.last[c] < capacity then a.ticks else a.last[c])
            && forall d :: d in a.last && d != c ==> b.last[d] == a.last[d]
  {
  }

  lemma MessageRefines(w: Wheel, c: nat)
    requires WheelInv(w) && w.buckets != [] && c in w.entries
    ensures Seen(Active(w, c)) == Noted(Seen(w), w.capacity, OnMessage(c))
  {
    AliveIffRecent(w, c);
    hide WheelInv, Active, Seen, Noted;
    var w' := Active(w, c);
    var a, a', b := Seen(w), Seen(w'), Noted(Seen(w), w.capacity, OnMessage(c));
    ActiveParts(w, c);
    SeenParts(w);
    SeenParts(w');
    NotedMessage(a, w.capacity, c);
    assert a'.last[c] == b.last[c];
    forall d | d in w.entries
      ensures a'.last[d] == b.last[d] && a'.shutdowns[d] == b.shutdowns[d]
    {
      if d != c {
        assert w'.entries[d] == w.entries[d] && b.last[d] == a.last[d];
      }
    }
    SameActivity(a', b);
  }

  lemma ConnectionRefines(w: Wheel, c: nat)
    requires w.buckets != [] && c !in w.entries
    ensures Seen(Connected(w, c)) == Noted(Seen(w), w.capacity, OnConnection(c))
  {
    SeenParts(w);
    SeenParts(Connected(w, c));
    hide Seen;
    SameActivity(Seen(Connected(w, c)), Noted(Seen(w), w.capacity, OnConnection(c)));
  }

  /** Every step of the wheel is one of the map. */
  lemma StepRefines(w: Wheel, step: Step)
    requires WheelInv(w) && Enabled(w, step)
    ensures Seen(Apply(w, step)) == Noted(Seen(w), w.capacity, step) && Apply(w, step).capacity == w.capacity
  {
    hide WheelInv;
    match step
    case OnTime =>
      TickRefines(w);
      hide Seen, Noted;
    case OnMessage(c) =>
      MessageRefines(w, c);
      hide Seen, Noted;
    case OnConnection(c) =>
      ConnectionRefines(w, c);
      hide Seen, Noted;
    case Disconnect(_) =>
  }

  lemma {:induction false} ExecRefines(w: Wheel, steps: seq<Step>)
    requires WheelInv(w) && Legal(w, steps)
    ensures Seen(Exec(w, steps)) == NotedAll(Seen(w), w.capacity, steps)
    decreases |steps|
  {
    if steps != [] {
      StepKeeps(w, steps[0]);
      StepRefines(w, steps[0]);
      hide WheelInv, Seen, Noted, Apply;
      ExecRefines(Apply(w, steps[0]), steps[1..]);
    }
  }

  /** The wheel is that map: in every run its entries are the connections of the map, with the same
      last activity, the same connections up and the same shutdowns; an entry is alive exactly
      while fewer than `capacity` ticks have passed since the last activity, the reference
      count is the number of buckets that hold it, and the destructor runs once, on the tick
      that is `capacity` after the last activity. */
  lemma WheelIsLastActivity(capacity: nat, steps: seq<Step>, c: nat)
    requires capacity >= 1 && Legal(Empty(capacity), steps)
    ensures var w, a := Exec(Empty(capacity), steps), NotedAll(QUIET, capacity, steps);
            && w.ticks == a.ticks && w.entries.Keys == a.last.Keys == a.shutdowns.Keys && w.connected == a.up
            && (c in w.entries ==>
                  var e := w.entries[c];
                  && e.last == a.last[c] && e.shutdowns == a.shutdowns[c]
                  && (e.refs > 0 <==> a.ticks - a.last[c] < capacity) && e.refs == Holders(w.buckets, c)
                  && e.deaths == (if a.ticks - a.last[c] < capacity then [] else [a.last[c] + capacity])
                  && (c in a.up ==> e.shutdowns == e.deaths) && |e.shutdowns| <= 1)
  {
    ExecKeeps(Empty(capacity), steps);
    ExecRefines(Empty(capacity), steps);
    CapacityKept(Empty(capacity), steps);
    var w := Exec(Empty(capacity), steps);
    assert Seen(Empty(capacity)) == QUIET;
    if c in w.entries {
      assert EntryInv(w, c, w.entries[c]);
      AliveIffRecent(w, c);
    }
    hide BucketsInv, Holders, Exec, NotedAll;
  }

  /** A message puts a live entry into the newest bucket, once, and makes this tick its last
      activity. */
  lemma MessageIsAnActivity(w: Wheel, c: nat)
    requires WheelInv(w) && w.buckets != [] && c in w.entries && w.ticks - w.entries[c].last < w.capacity
    ensures var w' := Active(w, c);
            && Ptr(c) in w'.buckets[|w'.buckets| - 1] && w'.entries[c].last == w.ticks
            && w'.entries[c].refs == Holders(w'.buckets, c) > 0
  {
    AliveIffRecent(w, c);
    ActiveKeeps(w, c);
    assert EntryInv(Active(w, c), c, Active(w, c).entries[c]);
    hide Holders, WheelInv;
  }

  lemma {:induction false} CapacityKept(w: Wheel, steps: seq<Step>)
    requires Legal(w, steps)
    ensures Exec(w, steps).capacity == w.capacity
    decreases |steps|
  {
    if steps != [] {
      CapacityKept(Apply(w, steps[0]), steps[1..]);
    }
  }

  /** A message that arrives after the entry has expired revives nothing. */
  lemma LateMessageRevivesNothing(w: Wheel, c: nat)
    requires WheelInv(w) && w.buckets != [] && c in w.entries && w.ticks - w.entries[c].last >= w.capacity
    ensures Active(w, c).entries == w.entries
    ensures forall d :: Holders(Active(w, c).buckets, d) == Holders(w.buckets, d)
  {
    AliveIffRecent(w, c);
    forall d: nat
      ensures Holders(Active(w, c).buckets, d) == Holders(w.buckets, d)
    {
      HoldersOfBack(w, Null, d);
    }
  }

  // ---------------------------------------------------------------- the class

  class EchoServer {
    const capacity: nat
    var buckets: seq<Bucket>
    var entries: map<nat, Entry>
    var connected: set<nat>
    var ticks: nat

    constructor (numBuckets: nat)
      ensures View() == Empty(numBuckets)
    {
      capacity := numBuckets;
      buckets, entries, connected, ticks := [], map[], {}, 0;
    }

    ghost function View(): Wheel
      reads this
    {
      Wheel(capacity, buckets, entries, connected, ticks)
    }

    /** A shared pointer to an entry goes away; the last one runs the destructor. */
    method Release(c: nat)
      requires c in entries
      modifies this`entries
      ensures entries == old(entries)[c := Released(old(entries)[c], true, ticks, c in connected)]
    {
      var e := entries[c];
      if e.refs > 1 {
        entries := entries[c := e.(refs := e.refs - 1)];
      } else if e.refs == 1 {
        var conn := if c in connected then [ticks] else [];
        entries := entries[c := e.(refs := 0, deaths := e.deaths + [ticks], shutdowns := e.shutdowns + conn)];
      }
    }

    /** The destructor of a bucket releases its pointers one by one, in any order. */
    method DropBucket(bucket: Bucket)
      requires forall c :: Ptr(c) in bucket ==> c in entries
      modifies this`entries
      ensures entries == Dropped(old(entries), bucket, ticks, connected)
    {
      var todo := bucket;
      while todo != {}
        invariant todo <= bucket && entries.Keys == old(entries).Keys
        invariant forall c :: c in entries ==>
          entries[c] == Released(old(entries)[c], Ptr(c) in bucket - todo, ticks, c in connected)
        decreases |todo|
      {
        var p :| p in todo;
        todo := todo - {p};
        if p != Null {
          Release(p.conn);
        }
      }
    }

    method OnTime()
      requires forall i, c :: 0 <= i < |buckets| && Ptr(c) in buckets[i] ==> c in entries
      requires |buckets| <= capacity
      modifies this`buckets, this`entries, this`ticks
      ensures View() == old(Ticked(View()))
    {
      ticks := ticks + 1;
      if capacity > 0 {
        if |buckets| == capacity {
          DropBucket(buckets[0]);
          buckets := buckets[1..];
        }
        buckets := buckets + [{}];
      }
    }

    method OnConnection(c: nat)
      requires buckets != [] && c !in entries
      modifies this`buckets, this`entries, this`connected
      ensures View() == old(Connected(View(), c))
    {
      connected := connected + {c};
      var n := |buckets| - 1;
      entries := entries[c := Entry(1, ticks, [], [])];  // newPtr
      buckets := buckets[n := buckets[n] + {Ptr(c)}];
      entries := entries[c := Entry(2, ticks, [], [])];  // and its copy in the bucket
      entries := entries[c := Entry(1, ticks, [], [])];  // newPtr goes out of scope
    }

    method OnMessage(c: nat)
      requires buckets != [] && c in entries
      modifies this`buckets, this`entries
      ensures View() == old(Active(View(), c))
    {
      var tmp := if entries[c].refs > 0 then Ptr(c) else Null;
      var n := |buckets| - 1;
      if tmp != Null {
        var added := if tmp in buckets[n] then 0 else 1;
        entries := entries[c := entries[c].(refs := entries[c].refs + added, last := ticks)];
      }
      buckets := buckets[n := buckets[n] + {tmp}];
    }
  }
}
