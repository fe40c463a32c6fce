/** The copy-on-write list: readers take a shared pointer under the lock and traverse without
    it, writers copy the list first unless nobody else points to it. Reference counts change
    whenever a pointer is copied or dropped, by any thread. */
module CopyOnWrite {

  type Foo = int
  type Thread = nat
  type Ref = nat

  /** Where the thread that holds the mutex for `post` is: before the test of `unique()`, before
      the copy, or before `push_back`. */
  datatype Lock = Free | BeforeTest(item: Foo) | BeforeCopy(item: Foo) | BeforePush(item: Foo)

  /** `snaps` and `posts` are history: what each reader saw when it took its pointer, and the
      items posted, in the order of the lock. */
  datatype State = State(
    heap: map<Ref, seq<Foo>>,
    count: map<Ref, nat>,
    global: Ref,
    readers: map<Thread, Ref>,
    lock: Lock,
    snaps: map<Thread, seq<Foo>>,
    posts: seq<Foo>)

  datatype Step =
    | Take(t: Thread)
    | Finish(t: Thread)
    | Post(item: Foo)
    | Test
    | Copy(next: Ref)
    | Push

  predicate Enabled(s: State, step: Step) {
    match step
    case Take(t) => s.lock == Free && t !in s.readers && s.global in s.heap && s.global in s.count
    case Finish(t) => t in s.readers && s.readers[t] in s.count
    case Post(_) => s.lock == Free
    case Test => s.lock.BeforeTest? && s.global in s.count
    case Copy(next) => s.lock.BeforeCopy? && next !in s.heap && s.global in s.heap && s.global in s.count
    case Push => s.lock.BeforePush? && s.global in s.heap
  }

  /** A pointer to `r` goes away, and the list with the last one. */
  function Dropped(s: State, r: Ref): State
    requires r in s.count
  {
    if s.count[r] <= 1 then s.(heap := s.heap - {r}, count := s.count - {r})
    else s.(count := s.count[r := s.count[r] - 1])
  }

  function Apply(s: State, step: Step): State
    requires Enabled(s, step)
  {
    match step
    case Take(t) =>
      s.(readers := s.readers[t := s.global], count := s.count[s.global := s.count[s.global] + 1],
         snaps := s.snaps[t := s.heap[s.global]])
    case Finish(t) => Dropped(s.(readers := s.readers - {t}, snaps := s.snaps - {t}), s.readers[t])
    case Post(item) => s.(lock := BeforeTest(item))
    case Test => s.(lock := if s.count[s.global] == 1 then BeforePush(s.lock.item) else BeforeCopy(s.lock.item))
    case Copy(next) =>
      var copied := s.(heap := s.heap[next := s.heap[s.global]], count := s.count[next := 1], global := next);
      Dropped(copied, s.global).(lock := BeforePush(s.lock.item))
    case Push =>
      s.(heap := s.heap[s.global := s.heap[s.global] + [s.lock.item]], lock := Free, posts := s.posts + [s.lock.item])
  }

  predicate Legal(s: State, steps: seq<Step>)
    decreases |steps|
  {
    steps == [] || (Enabled(s, steps[0]) && Legal(Apply(s, steps[0]), steps[1..]))
  }

  function Exec(s: State, steps: seq<Step>): State
    requires Legal(s, steps)
    decreases |steps|
  {
    if steps == [] then s else Exec(Apply(s, steps[0]), steps[1..])
  }

  // ---------------------------------------------------------------- the invariant

  function Holders(readers: map<Thread, Ref>, r: Ref): set<Thread> {
    set t | t in readers && readers[t] == r
  }

  /** The counts are right, and no pointer dangles. */
  ghost predicate CountInv(s: State) {
    && s.heap.Keys == s.count.Keys && s.global in s.heap
    && (forall t :: t in s.readers ==> s.readers[t] in s.heap)
    && (forall r :: r in s.count ==> s.count[r] == |Holders(s.readers, r)| + if r == s.global then 1 else 0)
    && (forall r :: r in s.count ==> s.count[r] >= 1)
  }

  /** The shared list is the posts; what a reader holds is what it took, a prefix of them. */
  ghost predicate DataInv(s: State)
    requires CountInv(s)
  {
    && s.heap[s.global] == s.posts
    && s.snaps.Keys == s.readers.Keys
    && (forall t :: t in s.readers ==> s.heap[s.readers[t]] == s.snaps[t] <= s.posts)
    && (s.lock.BeforePush? ==> s.count[s.global] == 1)
  }

  ghost predicate Inv(s: State) {
    CountInv(s) && DataInv(s)
  }

  /** A list nobody else points to has no reader. */
  lemma UniqueHasNoReader(s: State, t: Thread)
    requires CountInv(s) && s.count[s.global] == 1 && t in s.readers
    ensures s.readers[t] != s.global
  {
    assert t !in Holders(s.readers, s.global);
  }

  lemma HoldersAdd(readers: map<Thread, Ref>, t: Thread, g: Ref, r: Ref)
    requires t !in readers
    ensures |Holders(readers[t := g], r)| == |Holders(readers, r)| + if r == g then 1 else 0
  {
    assert Holders(readers[t := g], r) == Holders(readers, r) + if r == g then {t} else {};
  }

  lemma HoldersDrop(readers: map<Thread, Ref>, t: Thread, r: Ref)
    requires t in readers
    ensures |Holders(readers - {t}, r)| == |Holders(readers, r)| - if r == readers[t] then 1 else 0
  {
    assert Holders(readers, r) == Holders(readers - {t}, r) + if r == readers[t] then {t} else {};
  }

  lemma TakeKeeps(s: State, t: Thread)
    requires Inv(s) && Enabled(s, Take(t))
    ensures Inv(Apply(s, Take(t)))
  {
    var s' := Apply(s, Take(t));
    forall r | r in s'.count
      ensures s'.count[r] == |Holders(s'.readers, r)| + if r == s'.global then 1 else 0
    {
      HoldersAdd(s.readers, t, s.global, r);
    }
  }

  lemma FinishKeepsCounts(s: State, t: Thread)
    requires CountInv(s) && Enabled(s, Finish(t))
    ensures CountInv(Apply(s, Finish(t)))
  {
    var s' := Apply(s, Finish(t));
    forall r | r in s.count
      ensures |Holders(s'.readers, r)| == |Holders(s.readers, r)| - if r == s.readers[t] then 1 else 0
    {
      HoldersDrop(s.readers, t, r);
      hide Holders;
    }
    StillHeld(s'.readers);
    hide Holders;
  }

  /** A list with a reader has a holder. */
  lemma StillHeld(readers: map<Thread, Ref>)
    ensures forall t :: t in readers ==> |Holders(readers, readers[t])| >= 1
  {
    forall t | t in readers
      ensures |Holders(readers, readers[t])| >= 1
    {
      assert t in Holders(readers, readers[t]);
    }
  }

  lemma FinishKeeps(s: State, t: Thread)
    requires Inv(s) && Enabled(s, Finish(t))
    ensures Inv(Apply(s, Finish(t)))
  {
    FinishKeepsCounts(s, t);
    if s.lock.BeforePush? {
      UniqueHasNoReader(s, t);
    }
    assert CountInv(Apply(s, Finish(t)));
    hide Holders;
  }

  lemma CopyKeepsCounts(s: State, next: Ref)
    requires CountInv(s) && Enabled(s, Copy(next))
    ensures CountInv(Apply(s, Copy(next))) && Apply(s, Copy(next)).count[next] == 1
  {
    assert Holders(s.readers, next) == {};
    StillHeld(s.readers);
    hide Holders;
  }

  lemma CopyKeeps(s: State, next: Ref)
    requires Inv(s) && Enabled(s, Copy(next))
    ensures Inv(Apply(s, Copy(next)))
  {
    CopyKeepsCounts(s, next);
    hide Holders;
  }

  lemma PushKeeps(s: State)
    requires Inv(s) && Enabled(s, Push)
    ensures Inv(Apply(s, Push))
  {
    forall t | t in s.readers
      ensures s.readers[t] != s.global
    {
      UniqueHasNoReader(s, t);
    }
  }

  lemma StepKeeps(s: State, step: Step)
    requires Inv(s) && Enabled(s, step)
    ensures Inv(Apply(s, step))
  {
    match step
    case Take(t) => TakeKeeps(s, t);
    case Finish(t) => FinishKeeps(s, t);
    case Copy(next) => CopyKeeps(s, next);
    case Push => PushKeeps(s);
    case _ =>
  }

  lemma {:induction false} ExecKeeps(s: State, steps: seq<Step>)
    requires Inv(s) && Legal(s, steps)
    ensures Inv(Exec(s, steps))
    decreases |steps|
  {
    if steps != [] {
      StepKeeps(s, steps[0]);
      ExecKeeps(Apply(s, steps[0]), steps[1..]);
    }
  }

  /** `g_ptr` points to an empty list, and no thread has started. */
  function Initial(g: Ref): State {
    State(map[g := []], map[g := 1], g, map[], Free, map[], [])
  }

  /** In every interleaving: a list that a reader holds is still there and is what it was when
      the reader took it, a prefix of the posts; no post is lost; and the assertion that the
      next copy is unique holds. */
  lemma SnapshotsAreStable(g: Ref, steps: seq<Step>, t: Thread)
    requires Legal(Initial(g), steps)
    ensures var s := Exec(Initial(g), steps);
            && s.global in s.heap && s.heap[s.global] == s.posts
            && (t in s.readers ==> t in s.snaps && s.readers[t] in s.heap
                                   && s.heap[s.readers[t]] == s.snaps[t] && s.snaps[t] <= s.posts)
            && (s.lock.BeforePush? ==> s.global in s.count && s.count[s.global] == 1)
  {
    assert Holders(map[], g) == {};
    ExecKeeps(Initial(g), steps);
  }

  /** In every interleaving no list outlives its last pointer. */
  lemma NoListLeaks(g: Ref, steps: seq<Step>, r: Ref)
    requires Legal(Initial(g), steps) && r in Exec(Initial(g), steps).heap
    ensures var s := Exec(Initial(g), steps);
            r == s.global || exists t :: t in s.readers && s.readers[t] == r
  {
    assert Holders(map[], g) == {};
    ExecKeeps(Initial(g), steps);
    var s := Exec(Initial(g), steps);
    if r != s.global {
      assert |Holders(s.readers, r)| >= 1;
      var t :| t in Holders(s.readers, r);
    }
  }

  /** A reader gets all posts there are. */
  lemma ReaderGetsThePosts(s: State, t: Thread)
    requires Inv(s) && Enabled(s, Take(t))
    ensures var s' := Apply(s, Take(t));
            && t in s'.readers && s'.readers[t] in s'.heap && s'.heap[s'.readers[t]] == s.posts == s'.snaps[t]
            && s'.posts == s.posts
  {
  }

  /** The writer copies the list exactly if a reader holds it. */
  lemma CopiesIff(s: State)
    requires Inv(s) && s.lock.BeforeTest?
    ensures Enabled(s, Test)
    ensures var s' := Apply(s, Test);
            && (if exists t :: t in s.readers && s.readers[t] == s.global then s'.lock == BeforeCopy(s.lock.item)
                else s'.lock == BeforePush(s.lock.item))
            && s'.heap == s.heap && s'.readers == s.readers && s'.posts == s.posts
  {
    if t :| t in s.readers && s.readers[t] == s.global {
      assert t in Holders(s.readers, s.global);
    } else {
      assert Holders(s.readers, s.global) == {};
    }
  }

  // ---------------------------------------------------------------- the two wrong versions

  /** `post_wrong_version1` pushes without the test. It changes a snapshot under some reader
      exactly if one holds the current list. */
  lemma PushInPlaceIff(s: State, item: Foo)
    requires Inv(s)
    ensures var heap := s.heap[s.global := s.heap[s.global] + [item]];
            (forall t :: t in s.readers ==> heap[s.readers[t]] == s.snaps[t]) <==>
            (forall t :: t in s.readers ==> s.readers[t] != s.global)
  {
  }

  /** `post_wrong_version2`: the copy is made without the lock, and published under it. `base` is
      the list a copy was made from; `posts` is history, in the order of the lock. */
  datatype Local = Local(base: seq<Foo>, item: Foo)

  datatype Racy = Racy(list: seq<Foo>, locals: map<Thread, Local>, posts: seq<Foo>)

  datatype RacyStep = CopyAndAppend(t: Thread, item: Foo) | Publish(t: Thread)

  predicate RacyEnabled(s: Racy, step: RacyStep) {
    match step
    case CopyAndAppend(t, _) => t !in s.locals
    case Publish(t) => t in s.locals
  }

  function RacyApply(s: Racy, step: RacyStep): Racy
    requires RacyEnabled(s, step)
  {
    match step
    case CopyAndAppend(t, item) => s.(locals := s.locals[t := Local(s.list, item)])
    case Publish(t) =>
      var mine := s.locals[t];
      Racy(mine.base + [mine.item], s.locals - {t}, s.posts + [mine.item])
  }

  predicate RacyLegal(s: Racy, steps: seq<RacyStep>)
    decreases |steps|
  {
    steps == [] || (RacyEnabled(s, steps[0]) && RacyLegal(RacyApply(s, steps[0]), steps[1..]))
  }

  function RacyExec(s: Racy, steps: seq<RacyStep>): Racy
    requires RacyLegal(s, steps)
    decreases |steps|
  {
    if steps == [] then s else RacyExec(RacyApply(s, steps[0]), steps[1..])
  }

  /** Whoever publishes finds the list that the copy was made from. */
  predicate FindsItsBase(s: Racy, step: RacyStep)
    requires RacyEnabled(s, step)
  {
    step.Publish? ==> s.locals[step.t].base == s.list
  }

  predicate EachFindsItsBase(s: Racy, steps: seq<RacyStep>)
    requires RacyLegal(s, steps)
    decreases |steps|
  {
    steps == [] || (FindsItsBase(s, steps[0]) && EachFindsItsBase(RacyApply(s, steps[0]), steps[1..]))
  }

  /** Either nothing has been lost, and every copy is of a prefix of the posts; or the list is
      shorter than the posts, and so is every copy, and stays so. */
  ghost predicate RacyInv(s: Racy) {
    if s.list == s.posts then forall t :: t in s.locals ==> s.locals[t].base <= s.posts
    else |s.list| < |s.posts| && forall t :: t in s.locals ==> |s.locals[t].base| < |s.posts|
  }

  lemma RacyStepIff(s: Racy, step: RacyStep)
    requires RacyInv(s) && RacyEnabled(s, step)
    ensures RacyInv(RacyApply(s, step))
    ensures RacyApply(s, step).list == RacyApply(s, step).posts <==> s.list == s.posts && FindsItsBase(s, step)
  {
  }

  lemma {:induction false} RacyExecIff(s: Racy, steps: seq<RacyStep>)
    requires RacyInv(s) && RacyLegal(s, steps)
    ensures RacyInv(RacyExec(s, steps))
    ensures RacyExec(s, steps).list == RacyExec(s, steps).posts <==> s.list == s.posts && EachFindsItsBase(s, steps)
    decreases |steps|
  {
    if steps != [] {
      RacyStepIff(s, steps[0]);
      hide RacyInv;
      RacyExecIff(RacyApply(s, steps[0]), steps[1..]);
    }
  }

  /** In every run of `post_wrong_version2`: the list is the posts in the order of the lock if and
      only if every poster found the list its copy was made from; otherwise it is shorter. */
  lemma NothingIsLostIff(list: seq<Foo>, steps: seq<RacyStep>)
    requires RacyLegal(Racy(list, map[], list), steps)
    ensures var s := RacyExec(Racy(list, map[], list), steps);
            && (s.list == s.posts <==> EachFindsItsBase(Racy(list, map[], list), steps))
            && (s.list == s.posts || |s.list| < |s.posts|)
  {
    RacyExecIff(Racy(list, map[], list), steps);
  }

  /** From any list, two posters that copy before either publishes lose the first one's item. */
  lemma RacyLosesAPost(list: seq<Foo>, x: Foo, y: Foo) returns (steps: seq<RacyStep>)
    ensures RacyLegal(Racy(list, map[], list), steps)
    ensures RacyExec(Racy(list, map[], list), steps).list == list + [y]
    ensures RacyExec(Racy(list, map[], list), steps).posts == list + [x] + [y]
  {
    var s0 := Racy(list, map[], list);
    var s1 := RacyApply(s0, CopyAndAppend(0, x));
    var s2 := RacyApply(s1, CopyAndAppend(1, y));
    var s3 := RacyApply(s2, Publish(0));
    var s4 := RacyApply(s3, Publish(1));
    assert RacyLegal(s4, []) && RacyExec(s4, []) == s4;
    RacyCons(s3, Publish(1), []);
    RacyCons(s2, Publish(0), [Publish(1)] + []);
    RacyCons(s1, CopyAndAppend(1, y), [Publish(0)] + ([Publish(1)] + []));
    steps := [CopyAndAppend(0, x)] + ([CopyAndAppend(1, y)] + ([Publish(0)] + ([Publish(1)] + [])));
    RacyCons(s0, CopyAndAppend(0, x), steps[1..]);
  }

  lemma RacyCons(s: Racy, step: RacyStep, rest: seq<RacyStep>)
    requires RacyEnabled(s, step) && RacyLegal(RacyApply(s, step), rest)
    ensures RacyLegal(s, [step] + rest) && RacyExec(s, [step] + rest) == RacyExec(RacyApply(s, step), rest)
  {
    assert ([step] + rest)[1..] == rest;
  }

  // ---------------------------------------------------------------- the classes

  /** A list with the count of the shared pointers to it. */
  class FooList {
    const ref: Ref  // where it lies
    var items: seq<Foo>
    var useCount: nat

    constructor (ref: Ref, items: seq<Foo>)
      ensures this.ref == ref && this.items == items && useCount == 1
    {
      this.ref, this.items, useCount := ref, items, 1;
    }
  }

  predicate Within<K, V(==)>(a: map<K, V>, b: map<K, V>) {
    forall k :: k in a ==> k in b && a[k] == b[k]
  }

  /** The lists that are alive, and what they hold. */
  ghost predicate Stored(lists: map<Ref, FooList>, heap: map<Ref, seq<Foo>>, count: map<Ref, nat>)
    reads lists.Values
  {
    && lists.Keys == heap.Keys == count.Keys
    && forall r :: r in lists ==> lists[r].ref == r && lists[r].items == heap[r] && lists[r].useCount == count[r]
  }

  lemma NewStored(lists: map<Ref, FooList>, heap: map<Ref, seq<Foo>>, count: map<Ref, nat>, list: FooList)
    requires Stored(lists, heap, count) && list.ref !in lists && list.useCount == 1
    ensures Stored(lists[list.ref := list], heap[list.ref := list.items], count[list.ref := 1])
  {
  }

  /** Every pointer points to a list that is alive. */
  ghost predicate Pointed(ptr: FooList, held: map<Thread, FooList>, lists: map<Ref, FooList>,
                          readers: map<Thread, Ref>) {
    && ptr.ref in lists && lists[ptr.ref] == ptr && held.Keys == readers.Keys
    && forall t :: t in held ==> readers[t] in lists && lists[readers[t]] == held[t] && held[t].ref == readers[t]
  }

  lemma TakePoints(ptr: FooList, held: map<Thread, FooList>, lists: map<Ref, FooList>, readers: map<Thread, Ref>,
                   t: Thread)
    requires Pointed(ptr, held, lists, readers)
    ensures Pointed(ptr, held[t := ptr], lists, readers[t := ptr.ref])
  {
  }

  /** When a reader lets go of a list that still has a pointer, or had none but this one. */
  lemma FinishPoints(ptr: FooList, held: map<Thread, FooList>, lists: map<Ref, FooList>, readers: map<Thread, Ref>,
                     t: Thread, gone: bool)
    requires Pointed(ptr, held, lists, readers) && t in held
    requires gone ==> ptr.ref != readers[t] && forall u :: u in readers && u != t ==> readers[u] != readers[t]
    ensures Pointed(ptr, held - {t}, if gone then lists - {readers[t]} else lists, readers - {t})
  {
  }

  lemma CopyPoints(ptr: FooList, held: map<Thread, FooList>, lists: map<Ref, FooList>, readers: map<Thread, Ref>,
                   next: FooList, gone: bool)
    requires Pointed(ptr, held, lists, readers) && next.ref !in lists
    requires gone ==> forall u :: u in readers ==> readers[u] != ptr.ref
    ensures var more := lists[next.ref := next];
            Pointed(next, held, if gone then more - {ptr.ref} else more, readers)
  {
  }

  /** A list goes away only with its last pointer. */
  lemma LastPointer(s: State, t: Thread)
    requires CountInv(s) && t in s.readers && s.count[s.readers[t]] <= 1
    ensures s.readers[t] != s.global && forall u :: u in s.readers && u != t ==> s.readers[u] != s.readers[t]
  {
    var r := s.readers[t];
    assert t in Holders(s.readers, r);
    assert |Holders(s.readers, r)| >= 1;
    forall u | u in s.readers && u != t
      ensures s.readers[u] != r
    {
      if s.readers[u] == r {
        assert {t, u} <= Holders(s.readers, r);
        SubsetSize({t, u}, Holders(s.readers, r));
      }
    }
  }

  /** What the end of a traversal does to the state. */
  lemma FinishShape(s: State, t: Thread)
    requires Inv(s) && Enabled(s, Finish(t))
    ensures var s', r := Apply(s, Finish(t)), s.readers[t];
            && s'.readers == s.readers - {t} && s'.global == s.global && r in s.count && r in s.heap
            && s'.lock == s.lock && s'.posts == s.posts && s'.snaps == s.snaps - {t}
            && if s.count[r] <= 1 then s'.heap == s.heap - {r} && s'.count == s.count - {r}
               else s'.heap == s.heap && s'.count == s.count[r := s.count[r] - 1]
    ensures s.count[s.readers[t]] <= 1 ==>
      s.readers[t] != s.global && forall u :: u in s.readers && u != t ==> s.readers[u] != s.readers[t]
  {
    if s.count[s.readers[t]] <= 1 {
      LastPointer(s, t);
    }
  }

  lemma TakeShape(s: State, t: Thread)
    requires Enabled(s, Take(t))
    ensures var s' := Apply(s, Take(t));
            && s'.heap == s.heap && s'.count == s.count[s.global := s.count[s.global] + 1]
            && s'.readers == s.readers[t := s.global] && s'.global == s.global
  {
  }

  lemma PushShape(s: State)
    requires Inv(s) && Enabled(s, Push)
    ensures var s' := Apply(s, Push);
            && s'.heap == s.heap[s.global := s.heap[s.global] + [s.lock.item]] && s'.count == s.count
            && s'.readers == s.readers && s'.global == s.global && s.heap[s.global] == s.posts
            && s'.lock == Free && s'.posts == s.posts + [s.lock.item] && s'.snaps == s.snaps
  {
  }

  lemma TestShape(s: State)
    requires Inv(s) && s.lock.BeforeTest?
    ensures Enabled(s, Test)
    ensures Apply(s, Test) ==
            s.(lock := if s.count[s.global] == 1 then BeforePush(s.lock.item) else BeforeCopy(s.lock.item))
  {
  }

  lemma CopyShape(s: State, next: Ref)
    requires Inv(s) && Enabled(s, Copy(next))
    ensures var s', g := Apply(s, Copy(next)), s.global;
            && s'.readers == s.readers && s'.global == next && g in s.heap && g in s.count
            && s'.lock == BeforePush(s.lock.item) && s'.posts == s.posts && s'.snaps == s.snaps
            && (if s.count[g] <= 1 then
                  s'.heap == s.heap[next := s.heap[g]] - {g} && s'.count == s.count[next := 1] - {g}
                else s'.heap == s.heap[next := s.heap[g]] && s'.count == s.count[next := 1][g := s.count[g] - 1])
    ensures s.count[s.global] <= 1 ==> forall u :: u in s.readers ==> s.readers[u] != s.global
  {
    if s.count[s.global] <= 1 {
      forall u | u in s.readers
        ensures s.readers[u] != s.global
      {
        UniqueHasNoReader(s, u);
      }
    }
  }

  lemma {:induction false} SubsetSize<T>(a: set<T>, b: set<T>)
    requires a <= b
    ensures |a| <= |b|
    decreases a
  {
    if a != {} {
      var x :| x in a;
      SubsetSize(a - {x}, b - {x});
    }
  }

  lemma {:induction false} ExecAppend(s: State, a: seq<Step>, b: seq<Step>)
    requires Legal(s, a) && Legal(Exec(s, a), b)
    ensures Legal(s, a + b) && Exec(s, a + b) == Exec(Exec(s, a), b)
    decreases |a|
  {
    if a == [] {
      assert a + b == b;
    } else {
      assert (a + b)[0] == a[0] && (a + b)[1..] == a[1..] + b;
      ExecAppend(Apply(s, a[0]), a[1..], b);
    }
  }

  lemma ExecOne(s: State, steps: seq<Step>, step: Step)
    requires Legal(s, steps) && Enabled(Exec(s, steps), step)
    ensures Legal(s, steps + [step]) && Exec(s, steps + [step]) == Apply(Exec(s, steps), step)
  {
    var s' := Exec(s, steps);
    assert [step][1..] == [];
    assert Legal(Apply(s', step), []);
    assert Exec(s', [step]) == Exec(Apply(s', step), []);
    ExecAppend(s, steps, [step]);
  }

  /** The shared pointer, the readers' pointers and the lists they point to. The state machine
      runs beside them, and `Valid` says that they are its state. */
  class SharedList {
    var ptr: FooList                // g_ptr
    var held: map<Thread, FooList>  // tmp, of every thread inside `traverse`
    ghost var lists: map<Ref, FooList>
    ghost var s: State

    constructor (g: Ref)
      ensures Valid() && s == Initial(g)
    {
      var list := new FooList(g, []);
      ptr, held, lists, s := list, map[], map[g := list], Initial(g);
    }

    ghost predicate Valid()
      reads this, lists.Values
    {
      Stored(lists, s.heap, s.count) && Pointed(ptr, held, lists, s.readers) && ptr.ref == s.global
    }

    /** A pointer is copied. */
    method Share(list: FooList, ghost heap: map<Ref, seq<Foo>>, ghost count: map<Ref, nat>)
      requires Stored(lists, heap, count) && list.ref in lists && lists[list.ref] == list
      modifies list`useCount
      ensures list.ref in count && Stored(lists, heap, count[list.ref := count[list.ref] + 1])
    {
      list.useCount := list.useCount + 1;
    }

    /** A pointer goes away, and the list with the last one. */
    method Release(list: FooList, ghost heap: map<Ref, seq<Foo>>, ghost count: map<Ref, nat>)
      requires Stored(lists, heap, count) && list.ref in lists && lists[list.ref] == list
      modifies this`lists, list`useCount
      ensures list.ref in count
      ensures if count[list.ref] <= 1 then
                lists == old(lists) - {list.ref} && Stored(lists, heap - {list.ref}, count - {list.ref})
              else lists == old(lists) && Stored(lists, heap, count[list.ref := count[list.ref] - 1])
    {
      if list.useCount <= 1 {
        lists := lists - {list.ref};
      } else {
        list.useCount := list.useCount - 1;
      }
    }

    lemma PointerIsStored()
      requires Valid()
      ensures ptr.ref in lists && lists[ptr.ref] == ptr && ptr in lists.Values
      ensures ptr.ref in s.heap && ptr.items == s.heap[ptr.ref]
      ensures ptr.ref in s.count && ptr.useCount == s.count[ptr.ref]
      ensures lists.Keys == s.heap.Keys
    {
    }

    /** The locked part of `traverse`. */
    method Snapshot(t: Thread)
      requires Valid() && Enabled(s, Take(t))
      modifies this`held, this`s, ptr`useCount
      ensures Valid() && s == old(Apply(s, Take(t))) && held == old(held)[t := ptr]
    {
      hide Apply, Stored, Pointed;
      TakePoints(ptr, held, lists, s.readers, t);
      PointerIsStored();
      TakeShape(s, t);
      Share(ptr, s.heap, s.count);
      held := held[t := ptr];
      s := Apply(s, Take(t));
    }

    lemma ReaderPoints(t: Thread)
      requires Valid() && Inv(s) && Enabled(s, Finish(t))
      ensures t in held && t in s.readers && held[t].ref == s.readers[t]
      ensures held[t].ref in lists && lists[held[t].ref] == held[t] && held[t] in lists.Values
    {
    }

    /** The end of `traverse`. */
    method LetGo(t: Thread)
      requires Valid() && Inv(s) && Enabled(s, Finish(t))
      modifies this`held, this`lists, this`s, {held[t]}`useCount
      ensures Valid() && Inv(s) && s == old(Apply(s, Finish(t))) && held == old(held) - {t}
      ensures ptr == old(ptr) && s.lock == old(s.lock) && s.posts == old(s.posts) && Within(s.snaps, old(s.snaps))
      ensures Within(lists, old(lists))
    {
      hide Inv, Apply, Stored, Pointed, Enabled, Holders;
      FinishKeeps(s, t);
      FinishShape(s, t);
      ReaderPoints(t);
      FinishPoints(ptr, held, lists, s.readers, t, s.count[s.readers[t]] <= 1);
      var list := held[t];
      Release(list, s.heap, s.count);
      held := held - {t};
      s := Apply(s, Finish(t));
    }

    /** Some readers are done. */
    method LetAllGo(leavers: seq<Thread>) returns (ghost steps: seq<Step>)
      requires Valid() && Inv(s)
      modifies this, lists.Values`useCount
      ensures Valid() && Inv(s) && Legal(old(s), steps) && s == Exec(old(s), steps)
      ensures ptr == old(ptr) && s.lock == old(s.lock) && s.posts == old(s.posts) && Within(s.snaps, old(s.snaps))
      ensures Within(lists, old(lists))
    {
      steps := [];
      hide Inv, Apply, Stored, Pointed, Enabled, Holders;
      for i := 0 to |leavers|
        invariant Valid() && Inv(s) && Legal(old(s), steps) && s == Exec(old(s), steps)
        invariant ptr == old(ptr) && s.lock == old(s.lock) && s.posts == old(s.posts)
        invariant Within(s.snaps, old(s.snaps)) && Within(lists, old(lists))
      {
        if leavers[i] in held {
          ReaderMayFinish(leavers[i]);
          ExecOne(old(s), steps, Finish(leavers[i]));
          steps := steps + [Finish(leavers[i])];
          LetGo(leavers[i]);
        }
      }
    }

    lemma ReaderMayFinish(t: Thread)
      requires Valid() && Inv(s) && t in held
      ensures Enabled(s, Finish(t)) && held[t] in lists.Values
    {
    }

    lemma GlobalPoints(next: Ref)
      requires Valid() && Inv(s) && Enabled(s, Copy(next))
      ensures ptr.ref in lists && lists[ptr.ref] == ptr && next !in lists
      ensures s.global in s.heap && ptr.items == s.heap[s.global]
    {
    }

    /** The list is copied, and the copy takes its place. */
    method CopyList(next: Ref)
      requires Valid() && Inv(s) && Enabled(s, Copy(next))
      modifies this`ptr, this`lists, this`s, ptr`useCount
      ensures Valid() && Inv(s) && s == old(Apply(s, Copy(next))) && fresh(ptr) && ptr.ref == next
      ensures s.lock == BeforePush(old(s.lock.item)) && s.posts == old(s.posts) && s.snaps == old(s.snaps)
      ensures Within(lists, old(lists)[next := ptr])
    {
      hide Inv, Apply, Stored, Pointed, Enabled, Holders;
      CopyKeeps(s, next);
      CopyShape(s, next);
      GlobalPoints(next);
      var copied := new FooList(next, ptr.items);
      CopyPoints(ptr, held, lists, s.readers, copied, s.count[s.global] <= 1);
      NewStored(lists, s.heap, s.count, copied);
      lists := lists[next := copied];
      Release(ptr, s.heap[next := copied.items], s.count[next := 1]);
      ptr := copied;
      s := Apply(s, Copy(next));
    }

    /** `push_back`, when nobody else points to the list. */
    method PushBack(item: Foo)
      requires Valid() && Inv(s) && s.lock == BeforePush(item) && Enabled(s, Push)
      modifies this`s, ptr`items
      ensures Valid() && Inv(s) && s == old(Apply(s, Push))
      ensures ptr.items == s.posts == old(s.posts) + [item] && s.lock == Free && s.snaps == old(s.snaps)
    {
      hide Inv, Stored, Pointed, Holders;
      PushKeeps(s);
      PointerIsStored();
      PushShape(s);
      Append(item, s.heap, s.count);
      s := Apply(s, Push);
    }

    method Append(item: Foo, ghost heap: map<Ref, seq<Foo>>, ghost count: map<Ref, nat>)
      requires Stored(lists, heap, count) && ptr.ref in lists && lists[ptr.ref] == ptr
      modifies ptr`items
      ensures ptr.items == old(ptr.items) + [item]
      ensures Stored(lists, heap[ptr.ref := ptr.items], count)
    {
      ptr.items := ptr.items + [item];
    }

    /** The mutex is taken, and `unique()` is tested. */
    method LockAndTest(item: Foo, early: seq<Thread>) returns (unique: bool, ghost steps: seq<Step>)
      requires Valid() && Inv(s) && s.lock == Free
      modifies this, lists.Values`useCount
      ensures Valid() && Inv(s) && Legal(old(s), steps) && s == Exec(old(s), steps)
      ensures s.lock == if unique then BeforePush(item) else BeforeCopy(item)
      ensures s.posts == old(s.posts) && Within(s.snaps, old(s.snaps)) && Within(lists, old(lists))
    {
      hide Inv, Stored, Pointed, Holders, Dropped;
      ghost var s0 := s;
      StepKeeps(s, Step.Post(item));
      ExecOne(s, [], Step.Post(item));
      s := Apply(s, Step.Post(item));
      steps := [] + [Step.Post(item)];
      ghost var more := LetAllGo(early);
      hide Apply;
      ExecAppend(s0, steps, more);
      steps := steps + more;
      unique := ptr.useCount == 1;
      TestShape(s);
      PointerIsStored();
      StepKeeps(s, Test);
      ExecOne(s0, steps, Test);
      s := Apply(s, Test);
      steps := steps + [Test];
    }

    /** The list is copied if it has to be. */
    method CopyIfShared(item: Foo, unique: bool, next: Ref, between: seq<Thread>) returns (ghost steps: seq<Step>)
      requires Valid() && Inv(s) && next !in lists && s.lock == if unique then BeforePush(item) else BeforeCopy(item)
      modifies this, lists.Values`useCount
      ensures Valid() && Inv(s) && Legal(old(s), steps) && s == Exec(old(s), steps)
      ensures s.lock == BeforePush(item) && s.posts == old(s.posts) && Within(s.snaps, old(s.snaps))
      ensures Within(lists, if unique then old(lists) else old(lists)[next := ptr]) && (!unique ==> fresh(ptr))
    {
      hide Inv, Apply, Stored, Pointed, Holders;
      steps := LetAllGo(between);
      if !unique {
        MayCopy(next);
        ExecOne(old(s), steps, Copy(next));
        CopyList(next);
        steps := steps + [Copy(next)];
      }
    }

    lemma MayCopy(next: Ref)
      requires Valid() && Inv(s) && next !in lists && s.lock.BeforeCopy?
      ensures Enabled(s, Copy(next)) && ptr in lists.Values
    {
    }

    /** `post`. The lock is held throughout, but readers may let go of their lists before the
        test, between the test and the copy, and before the push. The item comes behind all
        posts before, and what a reader holds stays what it was. */
    method Post(item: Foo, next: Ref, early: seq<Thread>, between: seq<Thread>, late: seq<Thread>)
      returns (ghost steps: seq<Step>)
      requires Valid() && Inv(s) && s.lock == Free && next !in lists
      modifies this, lists.Values
      ensures Valid() && Inv(s) && Legal(old(s), steps) && s == Exec(old(s), steps)
      ensures s.lock == Free && ptr.items == s.posts == old(s.posts) + [item] && Within(s.snaps, old(s.snaps))
    {
      hide Inv, Apply, Stored, Pointed, Holders;
      ghost var s0 := s;
      var unique;
      unique, steps := LockAndTest(item, early);
      ghost var more := CopyIfShared(item, unique, next, between);
      ExecAppend(s0, steps, more);
      steps := steps + more;
      more := LetAllGo(late);
      ExecAppend(s0, steps, more);
      steps := steps + more;
      MayPush();
      ExecOne(s0, steps, Push);
      PushBack(item);
      steps := steps + [Push];
    }

    lemma MayPush()
      requires Valid() && Inv(s) && s.lock.BeforePush?
      ensures Enabled(s, Push) && ptr in lists.Values
    {
    }

    /** What a reader holds, it has held since its snapshot, unchanged. */
    lemma HeldIsSnapshot(t: Thread)
      requires Valid() && Inv(s) && t in held
      ensures t in s.snaps && held[t].items == s.snaps[t] && s.snaps[t] <= s.posts
    {
    }
  }
}
