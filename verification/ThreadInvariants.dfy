/** The inductive invariant of the thread system, part by part. */
module ThreadInvariants {
  import opened Sequences
  import opened ThreadSystem
  import opened ThreadPlaces

  // ---------- Call stacks and masks ----------

  predicate Exiting(f: Frame) {
    f.ExitEntry? || f.ExitYield? || f.ExitAssert?
  }

  /** A call stack that returns to user code. */
  ghost predicate Ordinary(stack: seq<Frame>) {
    forall i :: 0 <= i < |stack| ==> !Exiting(stack[i])
  }

  /** The mask user code sees again once all calls on the stack have returned, with `mask` now in force. */
  function MaskOnReturn(stack: seq<Frame>, mask: bool): bool {
    if stack == [] then mask
    else
      var below := stack[..|stack| - 1];
      match stack[|stack| - 1]
      case Stub => MaskOnReturn(below, true)
      case YieldResume(prev, _) => MaskOnReturn(below, prev)
      case SleepResume(prev) => MaskOnReturn(below, prev)
      case WaitResume(prev, _) => MaskOnReturn(below, prev)
      case AcquireLoop(_, prev) => MaskOnReturn(below, prev)
      case HandlerResume(_) => MaskOnReturn(below, true)
      case _ => MaskOnReturn(below, mask)
  }

  /** A frame whose function called on from inside its critical section. */
  predicate Critical(f: Frame) {
    f.SleepResume? || f.WaitResume? || f.AcquireLoop? || f.HandlerResume?
  }

  /** A frame of a condition variable's function, between its critical sections. */
  predicate InCv(f: Frame) {
    f.CvRelease? || f.CvSleep? || f.CvAcquire? || f.CvWakeup?
  }

  /** A frame whose function gives back interrupts off. */
  predicate GivesBackOff(f: Frame) {
    (f.YieldResume? || f.SleepResume?) && !f.prev
  }

  /** The critical section of frame `i`, if it has one, is not interrupted. */
  predicate StaysClosed(stack: seq<Frame>, i: nat, mask: bool)
    requires i < |stack|
  {
    Critical(stack[i]) ==> if i == |stack| - 1 then !mask else GivesBackOff(stack[i + 1])
  }

  /** Critical sections stay closed through the calls made inside them. */
  ghost predicate Nested(stack: seq<Frame>, mask: bool) {
    forall i :: 0 <= i < |stack| ==> StaysClosed(stack, i, mask)
  }

  /** No critical section is open right below. */
  predicate Open(stack: seq<Frame>) {
    stack != [] ==> !Critical(stack[|stack| - 1])
  }

  /** All calls of a thread will return, and user code will find its own mask again. */
  ghost predicate Returns(stack: seq<Frame>, mask: bool, userMask: bool) {
    Ordinary(stack) && Nested(stack, mask) && MaskOnReturn(stack, mask) == userMask
  }

  /** A thread that may be dispatched comes back from the library properly. */
  ghost predicate AllReturn(running: Tid, state: States, ctl: Frames, userMask: Flags) {
    forall t: Tid :: t != running && state[t] in {Ready, Sleeping, Killed} ==> Returns(ctl[t], false, userMask[t])
  }

  ghost predicate OthersReturn(s: Sys) {
    AllReturn(s.running, s.state, s.ctl, s.userMask)
  }

  ghost predicate RunnerReturns(s: Sys) {
    Returns(s.ctl[s.running], s.mask, s.userMask[s.running])
  }

  ghost predicate Control(s: Sys) {
    && OthersReturn(s)
    && (s.state[s.running] == Running ==> RunnerReturns(s) || (s.ctl[s.running] == [ExitEntry] && !s.mask))
    && (s.state[s.running] == Exited ==> s.ctl[s.running] == [ExitYield] && s.ready != [])
  }

  // ---------- Slots and stacks ----------

  predicate Used(x: ThreadState) {
    x != NotInitialized
  }

  /** The allocated stacks are those of the slots in use, one each, and nothing else was ever freed. */
  ghost predicate StacksOwned(state: States, stack: Stacks, heap: Heap) {
    && !heap.badFree
    && (forall t: Tid :: Used(state[t]) && stack[t].Some? ==> stack[t].value in heap.live)
    && (forall t: Tid, u: Tid :: t != u && Used(state[t]) && Used(state[u]) && stack[t].Some? ==> stack[t] != stack[u])
    && (forall a :: a in heap.live ==> exists t: Tid :: Used(state[t]) && stack[t] == Some(a))
  }

  ghost predicate ExitsFlagged(state: States, cleanup: bool) {
    forall t: Tid :: state[t] == Exited ==> cleanup
  }

  ghost predicate Slots(s: Sys) {
    ExitsFlagged(s.state, s.cleanup) && StacksOwned(s.state, s.stack, s.heap)
  }

  /** No slot is taken, given up or emptied. */
  ghost predicate SameSlots(s: Sys, r: Sys) {
    && r.cleanup == s.cleanup && r.stack == s.stack && r.heap == s.heap
    && forall t: Tid :: (s.state[t] == Exited <==> r.state[t] == Exited) && (Used(s.state[t]) <==> Used(r.state[t]))
  }

  lemma SameSlotsKeep(s: Sys, r: Sys)
    requires Slots(s) && SameSlots(s, r)
    ensures Slots(r)
  {
    forall a | a in r.heap.live ensures exists t: Tid :: Used(r.state[t]) && r.stack[t] == Some(a) {
      var t: Tid :| Used(s.state[t]) && s.stack[t] == Some(a);
      assert Used(r.state[t]);
    }
  }

  // ---------- Locks ----------

  /** A thread between acquire and release owns the lock, which is taken. */
  ghost predicate Exclusive(locks: map<nat, Lock>, held: LockSets) {
    forall t: Tid, l :: l in held[t] ==> l in locks && locks[l] == Lock(true, t)
  }

  /** Nobody waits for a free lock. */
  ghost predicate NoIdleWaiter(locks: map<nat, Lock>, wait: Queues) {
    forall l :: l in locks && !locks[l].acquired ==> At(wait, LockQueue(l)) == []
  }

  ghost predicate Locking(s: Sys) {
    Exclusive(s.locks, s.held) && NoIdleWaiter(s.locks, s.wait)
  }

  // ---------- Wait queue histories ----------

  /** Threads leave every wait queue in the order in which they joined it. */
  ghost predicate InOrder(slept: Queues, woken: Queues, wait: Queues) {
    forall q :: At(slept, q) == At(woken, q) + At(wait, q)
  }

  ghost predicate Fifo(s: Sys) {
    InOrder(s.slept, s.woken, s.wait)
  }

  ghost predicate Inv(s: Sys) {
    && s.state[s.running] in {Running, Exited}
    && Placed(s)
    && Control(s)
    && Slots(s)
    && Locking(s)
    && Fifo(s)
  }

  // ---------- thread_wakeup ----------

  lemma WakeSlots(s: Sys, q: WaitQueue, all: int)
    ensures SameSlots(s, Wake(s, q, all))
    ensures s.state[s.running] != Sleeping ==> Wake(s, q, all).state[s.running] == s.state[s.running]
    ensures s.ready <= Wake(s, q, all).ready
  {
  }

  lemma WakeControl(s: Sys, q: WaitQueue, all: int)
    requires OthersReturn(s)
    ensures OthersReturn(Wake(s, q, all))
  {
  }

  lemma WakeFifo(s: Sys, q: WaitQueue, all: int)
    requires Fifo(s)
    ensures Fifo(Wake(s, q, all))
  {
    var k := WakeCount(s, q, all);
    var w := At(s.wait, q);
    var r := Wake(s, q, all);
    forall p ensures At(r.slept, p) == At(r.woken, p) + At(r.wait, p) {
      if k != 0 && p == q {
        assert w == w[..k] + w[k..];
        assert At(s.slept, q) == At(s.woken, q) + w[..k] + w[k..];
      }
    }
  }

  /** Waking everybody empties the queue; other queues are left alone. */
  lemma WakeQueues(s: Sys, q: WaitQueue, all: int)
    ensures forall p :: p != q ==> At(Wake(s, q, all).wait, p) == At(s.wait, p)
    ensures all == 1 ==> At(Wake(s, q, all).wait, q) == []
  {
  }

  /** thread_wakeup keeps the invariant's parts, called by a running or exiting thread. */
  lemma WakeKeeps(s: Sys, q: WaitQueue, all: int)
    requires Placed(s) && Slots(s) && Fifo(s) && OthersReturn(s) && s.state[s.running] in {Running, Exited}
    ensures var r := Wake(s, q, all);
            && Placed(r) && Slots(r) && Fifo(r) && OthersReturn(r) && s.ready <= r.ready
            && r.state[r.running] == s.state[s.running]
  {
    var at := PlacesOf(s);
    var at' := WakePlaced(s, at, q, all);
    WakeSlots(s, q, all);
    SameSlotsKeep(s, Wake(s, q, all));
    WakeFifo(s, q, all);
    WakeControl(s, q, all);
  }

  // ---------- thread_yield and thread_sleep ----------

  lemma PushedReturns(stack: seq<Frame>, f: Frame, mask: bool)
    ensures var pushed := stack + [f];
            && (Ordinary(pushed) <==> Ordinary(stack) && !Exiting(f))
            && (f.YieldResume? ==> MaskOnReturn(pushed, mask) == MaskOnReturn(stack, f.prev))
            && (f.SleepResume? ==> MaskOnReturn(pushed, mask) == MaskOnReturn(stack, f.prev))
            && (f.WaitResume? ==> MaskOnReturn(pushed, mask) == MaskOnReturn(stack, f.prev))
            && (f.AcquireLoop? ==> MaskOnReturn(pushed, mask) == MaskOnReturn(stack, f.prev))
            && (f.Stub? || f.HandlerResume? ==> MaskOnReturn(pushed, mask) == MaskOnReturn(stack, true))
            && (InCv(f) ==> MaskOnReturn(pushed, mask) == MaskOnReturn(stack, mask))
  {
    var pushed := stack + [f];
    assert pushed[..|pushed| - 1] == stack;
    assert pushed[|stack|] == f;
    if Ordinary(pushed) {
      forall i | 0 <= i < |stack| ensures !Exiting(stack[i]) {
        assert stack[i] == pushed[i];
      }
    }
  }

  /** Calls nest: a critical section is only left open across a call that gives back interrupts off. */
  lemma PushedNested(stack: seq<Frame>, f: Frame, was: bool, mask: bool)
    requires Nested(stack, was) && (Critical(f) ==> !mask)
    requires Open(stack) || ((f.YieldResume? || f.SleepResume?) && f.prev == was)
    ensures Nested(stack + [f], mask)
  {
    var pushed := stack + [f];
    forall i | 0 <= i < |pushed| ensures StaysClosed(pushed, i, mask) {
      if i < |stack| {
        assert StaysClosed(stack, i, was);
        assert pushed[i] == stack[i];
        assert pushed[i + 1] == if i + 1 < |stack| then stack[i + 1] else f;
      }
    }
  }

  lemma ParkedReturns(s: Sys, next: Tid)
    requires RunnerReturns(s)
    ensures Returns(s.ctl[s.running] + [YieldResume(s.mask, next)], false, s.userMask[s.running])
  {
    PushedReturns(s.ctl[s.running], YieldResume(s.mask, next), false);
    PushedNested(s.ctl[s.running], YieldResume(s.mask, next), s.mask, false);
  }

  /** The context switch suspends the caller so that it returns properly, and resumes a thread that was. */
  lemma SwitchControl(s: Sys, next: Tid)
    requires OthersReturn(s) && s.state[s.running] in {Running, Exited, Sleeping}
    requires s.state[s.running] != Exited ==> RunnerReturns(s)
    requires next == s.running ==> s.state[next] == Running
    requires next != s.running ==> s.state[next] in {Ready, Killed}
    ensures Control(Switch(s, next, s.mask))
  {
    hide Returns;
    if s.state[s.running] != Exited {
      ParkedReturns(s, next);
    }
  }

  lemma SwitchSlots(s: Sys, next: Tid)
    requires s.state[s.running] in {Running, Exited, Sleeping} && s.state[next] in {Running, Ready, Killed}
    ensures SameSlots(s, Switch(s, next, s.mask))
  {
  }

  /** Whoever is at the head of the ready queue can be switched to. */
  lemma HeadCanRun(s: Sys)
    requires Placed(s) && Requeued(s) != [] && s.state[s.running] in {Running, Exited, Sleeping}
    ensures Requeued(s)[0] == s.running ==> s.state[s.running] == Running
    ensures Requeued(s)[0] != s.running ==> s.state[Requeued(s)[0]] in {Ready, Killed}
  {
    var at := PlacesOf(s);
    var head := Requeued(s)[0];
    assert head in s.ready || head == s.running;
    assert at[s.running] != InReady;
  }

  lemma SwitchKeeps(s: Sys, next: Tid)
    requires Slots(s) && OthersReturn(s) && s.state[s.running] in {Running, Exited, Sleeping}
    requires s.state[s.running] != Exited ==> RunnerReturns(s)
    requires next == s.running ==> s.state[next] == Running
    requires next != s.running ==> s.state[next] in {Ready, Killed}
    ensures Slots(Switch(s, next, s.mask)) && Control(Switch(s, next, s.mask))
  {
    SwitchControl(s, next);
    SwitchSlots(s, next);
    SameSlotsKeep(s, Switch(s, next, s.mask));
  }

  lemma YieldAnyControl(s: Sys)
    requires Slots(s) && OthersReturn(s) && Requeued(s) != []
    requires s.state[s.running] in {Running, Exited, Sleeping}
    requires s.state[s.running] != Exited ==> RunnerReturns(s)
    requires Requeued(s)[0] == s.running ==> s.state[s.running] == Running
    requires Requeued(s)[0] != s.running ==> s.state[Requeued(s)[0]] in {Ready, Killed}
    ensures Slots(YieldAny(s)) && Control(YieldAny(s))
  {
    var queue := Requeued(s);
    var picked := Picked(s);
    if queue[0] != s.running {
      SwitchKeeps(picked, queue[0]);
    }
  }

  lemma YieldAnyKeeps(s: Sys)
    requires Placed(s) && Slots(s) && OthersReturn(s) && Requeued(s) != []
    requires s.state[s.running] in {Running, Exited, Sleeping}
    requires s.state[s.running] != Exited ==> RunnerReturns(s)
    ensures var r := YieldAny(s);
            && Placed(r) && Slots(r) && Control(r) && r.status == s.status && r.state[r.running] == Running
  {
    HeadCanRun(s);
    YieldAnyControl(s);
    var at := PlacesOf(s);
    var at' := YieldAnyPlaced(s, at);
  }

  lemma YieldToControl(s: Sys, want: int)
    requires Slots(s) && OthersReturn(s) && RunnerReturns(s)
    requires s.state[s.running] == Running && want != THREAD_ANY
    ensures Slots(ThreadYield(s, want)) && Control(ThreadYield(s, want))
  {
    if Accepted(s, want) && Wanted(s, want) in Requeued(s) {
      var next: Tid := Wanted(s, want);
      var picked := s.(ready := RemoveFirst<Tid>(Requeued(s), next));
      SwitchKeeps(picked, next);
    } else {
      SameSlotsKeep(s, ThreadYield(s, want));
    }
  }

  lemma YieldToKeeps(s: Sys, want: int)
    requires Placed(s) && Slots(s) && OthersReturn(s) && RunnerReturns(s)
    requires s.state[s.running] == Running && want != THREAD_ANY
    ensures var r := ThreadYield(s, want);
            && Placed(r) && Slots(r) && Control(r) && r.state[r.running] == Running
  {
    YieldToControl(s, want);
    var at := PlacesOf(s);
    var at' := YieldToPlaced(s, at, want);
  }

  /** What the running thread's own slot holds does not matter for the others. */
  lemma OthersUnaffected(running: Tid, state: States, ctl: Frames, userMask: Flags, x: ThreadState, stack: seq<Frame>)
    requires AllReturn(running, state, ctl, userMask)
    ensures AllReturn(running, state[running := x], ctl[running := stack], userMask)
  {
  }

  lemma JoinInOrder(slept: Queues, woken: Queues, wait: Queues, q: WaitQueue, t: Tid)
    requires InOrder(slept, woken, wait)
    ensures InOrder(slept[q := At(slept, q) + [t]], woken, wait[q := At(wait, q) + [t]])
  {
    var slept' := slept[q := At(slept, q) + [t]];
    var wait' := wait[q := At(wait, q) + [t]];
    forall p ensures At(slept', p) == At(woken, p) + At(wait', p) {
      assert At(slept, p) == At(woken, p) + At(wait, p);
    }
  }

  lemma AsleepSlots(s: Sys, q: WaitQueue)
    requires Slots(s) && s.state[s.running] == Running
    ensures Slots(Asleep(s, q))
  {
    SameSlotsKeep(s, Asleep(s, q));
  }

  lemma AsleepKeeps(s: Sys, q: WaitQueue)
    requires Slots(s) && Fifo(s) && OthersReturn(s) && RunnerReturns(s) && s.state[s.running] == Running
    ensures var r := Asleep(s, q);
            && Slots(r) && Fifo(r) && OthersReturn(r) && RunnerReturns(r)
  {
    PushedReturns(s.ctl[s.running], SleepResume(s.mask), false);
    PushedNested(s.ctl[s.running], SleepResume(s.mask), s.mask, false);
    AsleepSlots(s, q);
    JoinInOrder(s.slept, s.woken, s.wait, q, s.running);
    OthersUnaffected(s.running, s.state, s.ctl, s.userMask, Sleeping, s.ctl[s.running] + [SleepResume(s.mask)]);
  }

  lemma AsleepPlaced(s: Sys, q: WaitQueue)
    requires Placed(s) && s.state[s.running] == Running
    ensures Placed(Asleep(s, q))
  {
    var at := PlacesOf(s);
    EnqueueLinked(s.ready, s.wait, at, s.running, q);
    assert PlacedAt(Asleep(s, q), at[s.running := Waiting(q)]);
  }

  lemma BlockKeeps(s: Sys, q: WaitQueue)
    requires Placed(s) && Slots(s) && Fifo(s) && OthersReturn(s) && RunnerReturns(s)
    requires s.state[s.running] == Running && s.ready != []
    ensures var r := Block(s, q);
            && Placed(r) && Slots(r) && Fifo(r) && Control(r) && r.status == s.status
            && r.state[r.running] == Running
  {
    AsleepPlaced(s, q);
    AsleepKeeps(s, q);
    YieldAnyKeeps(Asleep(s, q));
  }

  // ---------- thread_exit_cleanup ----------

  /** The cleanup loop frees the stacks of the exited threads, each of them once, and no other. */
  lemma {:induction false} FreeExitedExactly(state: States, stack: Stacks, h: Heap, n: nat)
    requires n <= 1024 && StacksOwned(state, stack, h)
    ensures var r := FreeExited(state, stack, h, n);
            && !r.badFree
            && forall a :: a in r.live <==>
                             a in h.live && !exists t: Tid :: t < n && state[t] == Exited && stack[t] == Some(a)
  {
    if n != 0 {
      FreeExitedExactly(state, stack, h, n - 1);
      var last: Tid := n - 1;
      var before := FreeExited(state, stack, h, n - 1);
      var r := FreeExited(state, stack, h, n);
      forall a
        ensures a in r.live <==>
                a in h.live && !exists t: Tid :: t < n && state[t] == Exited && stack[t] == Some(a)
      {
        if a in before.live && a !in r.live {
          assert state[last] == Exited && stack[last] == Some(a);
        }
        if exists t: Tid :: t < n && state[t] == Exited && stack[t] == Some(a) {
          var t: Tid :| t < n && state[t] == Exited && stack[t] == Some(a);
          assert t < n - 1 || t == last;
        }
      }
    }
  }

  lemma CleanupSlots(s: Sys)
    requires Slots(s)
    ensures Slots(Cleanup(s)) && !Cleanup(s).cleanup
    ensures forall t: Tid :: Cleanup(s).state[t] == Reclaimed(s.state[t])
  {
    var r := Cleanup(s);
    if s.cleanup {
      FreeExitedExactly(s.state, s.stack, s.heap, 1024);
      forall a | a in r.heap.live ensures exists t: Tid :: Used(r.state[t]) && r.stack[t] == Some(a) {
        var t: Tid :| Used(s.state[t]) && s.stack[t] == Some(a);
        assert Used(r.state[t]);
      }
    }
  }

  lemma CleanupKeeps(s: Sys)
    requires Placed(s) && Slots(s) && OthersReturn(s) && s.state[s.running] == Running
    ensures var r := Cleanup(s);
            && Placed(r) && Slots(r) && OthersReturn(r) && !r.cleanup
            && forall t: Tid :: r.state[t] == Reclaimed(s.state[t])
  {
    var at := PlacesOf(s);
    CleanupSlots(s);
    assert PlacedAt(Cleanup(s), at);
  }
}
