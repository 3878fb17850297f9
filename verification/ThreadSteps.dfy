/** Every step of the thread system keeps the invariant. */
module ThreadSteps {
  import opened Sequences
  import opened ThreadSystem
  import opened ThreadPlaces
  import opened ThreadInvariants

  /** The parts of the invariant that do not depend on where the running thread is. */
  ghost predicate Core(s: Sys) {
    Placed(s) && Slots(s) && Locking(s) && Fifo(s) && OthersReturn(s)
  }

  /** User code, or the library on behalf of user code, is running. */
  ghost predicate InUse(s: Sys) {
    Core(s) && s.state[s.running] == Running && RunnerReturns(s)
  }

  /** A failed assertion leaves the heap as it was, any other end of a step the slots in order. */
  ghost predicate Tidy(s: Sys, r: Sys) {
    if r.status == Aborted then r.heap == s.heap else Slots(r)
  }

  lemma InUseIsInv(s: Sys)
    requires InUse(s)
    ensures Inv(s)
  {
  }

  lemma UserCodeInUse(s: Sys)
    requires Inv(s) && s.ctl[s.running] == []
    ensures InUse(s) && s.mask == s.userMask[s.running]
  {
  }

  // ---------- Creating, killing ----------

  lemma CreatePlaced(s: Sys, t: Tid)
    requires Placed(s) && s.state[t] == NotInitialized
    ensures Arranged(s.ready + [t], s.wait, s.state[t := Ready], s.running)
  {
    var at := PlacesOf(s);
    PushLinked(s.ready, s.wait, at, t);
    assert ArrangedAt(s.ready + [t], s.wait, s.state[t := Ready], s.running, at[t := InReady]);
  }

  lemma CreateOwned(state: States, stack: Stacks, heap: Heap, t: Tid, a: Addr)
    requires StacksOwned(state, stack, heap) && !Used(state[t]) && a !in heap.live
    ensures StacksOwned(state[t := Ready], stack[t := Some(a)], heap.(live := heap.live + {a}))
  {
    var state': States := state[t := Ready];
    var stack': Stacks := stack[t := Some(a)];
    forall b | b in heap.live + {a} ensures exists u: Tid :: Used(state'[u]) && stack'[u] == Some(b) {
      if b == a {
        assert Used(state'[t]);
      } else {
        var u: Tid :| Used(state[u]) && stack[u] == Some(b);
        assert Used(state'[u]);
      }
    }
  }

  lemma CreateReturns(running: Tid, state: States, ctl: Frames, userMask: Flags, t: Tid)
    requires AllReturn(running, state, ctl, userMask)
    ensures AllReturn(running, state[t := Ready], ctl[t := [Stub]], userMask[t := true])
  {
    PushedReturns([], Stub, false);
    PushedNested([], Stub, false, false);
    assert [] + [Stub] == [Stub];
  }

  lemma CleanInUse(s: Sys)
    requires InUse(s)
    ensures InUse(Cleanup(s)) && !Cleanup(s).cleanup
  {
    CleanupKeeps(s);
  }

  lemma ReturnInUse(s: Sys, value: int)
    requires InUse(s)
    ensures InUse(Return(s, value))
  {
  }

  lemma CreateKeeps(s: Sys, memory: Option<Addr>)
    requires InUse(s) && (memory.Some? ==> memory.value !in Cleanup(s).heap.live)
    ensures InUse(ThreadCreate(s, memory))
  {
    CleanInUse(s);
    var c := Cleanup(s);
    FirstFreeBound(c.state, 0);
    var i := FirstFree(c.state, 0);
    if i == 1024 {
      ReturnInUse(c, THREAD_NOMORE);
    } else if memory.None? {
      ReturnInUse(c, THREAD_NOMEMORY);
    } else {
      CreatedKeeps(c, i, memory.value);
      ReturnInUse(Created(c, i, memory.value), i);
    }
  }

  lemma CreatedKeeps(s: Sys, t: Tid, a: Addr)
    requires InUse(s) && s.state[t] == NotInitialized && a !in s.heap.live
    ensures InUse(Created(s, t, a))
  {
    CreatePlaced(s, t);
    CreateOwned(s.state, s.stack, s.heap, t, a);
    CreateReturns(s.running, s.state, s.ctl, s.userMask, t);
    assert ExitsFlagged(s.state[t := Ready], s.cleanup);
    assert Exclusive(s.locks, s.held[t := {}]);
  }

  lemma KilledPlaced(c: Sys, t: Tid)
    requires Placed(c) && t != c.running && c.state[t] in {Ready, Sleeping, Killed}
    ensures Arranged(c.ready, c.wait, c.state[t := Killed], c.running)
  {
    var at := PlacesOf(c);
    assert ArrangedAt(c.ready, c.wait, c.state[t := Killed], c.running, at);
  }

  lemma MarkedKeeps(s: Sys, t: Tid)
    requires InUse(s) && t != s.running && s.state[t] in {Ready, Sleeping, Killed}
    ensures InUse(Marked(s, t))
  {
    KilledPlaced(s, t);
    SameSlotsKeep(s, Marked(s, t));
    assert AllReturn(s.running, s.state[t := Killed], s.ctl, s.userMask);
  }

  lemma KillKeeps(s: Sys, tid: int)
    requires InUse(s)
    ensures InUse(ThreadKill(s, tid))
  {
    CleanupKeeps(s);
    var c := Cleanup(s);
    if IsTid(tid) && tid != s.running && c.state[tid] != NotInitialized {
      NotRunning(c, tid);
      MarkedKeeps(c, tid);
    }
  }

  lemma NotRunning(s: Sys, t: Tid)
    requires Placed(s) && t != s.running
    ensures s.state[t] != Running
  {
    var at := PlacesOf(s);
  }

  // ---------- Exiting ----------

  /** thread_exit up to the point where it wakes its waiters. */
  function Dying(s: Sys): Sys {
    Cleanup(s).(state := Cleanup(s).state[s.running := Exited], cleanup := true)
  }

  lemma DyingPlaced(s: Sys)
    requires Placed(s) && s.state[s.running] == Running
    ensures Arranged(s.ready, s.wait, s.state[s.running := Exited], s.running)
  {
    var at := PlacesOf(s);
    assert ArrangedAt(s.ready, s.wait, s.state[s.running := Exited], s.running, at[s.running := Nowhere]);
  }

  lemma DyingOwned(state: States, stack: Stacks, heap: Heap, t: Tid)
    requires StacksOwned(state, stack, heap) && Used(state[t])
    ensures StacksOwned(state[t := Exited], stack, heap)
  {
    var state': States := state[t := Exited];
    forall a | a in heap.live ensures exists u: Tid :: Used(state'[u]) && stack[u] == Some(a) {
      var u: Tid :| Used(state[u]) && stack[u] == Some(a);
      assert Used(state'[u]);
    }
  }

  lemma DyingKeeps(s: Sys)
    requires Core(s) && s.state[s.running] == Running
    ensures Core(Dying(s))
  {
    CleanupKeeps(s);
    var c := Cleanup(s);
    DyingPlaced(c);
    DyingOwned(c.state, c.stack, c.heap, s.running);
    OthersUnaffected(c.running, c.state, c.ctl, c.userMask, Exited, c.ctl[c.running]);
    assert c.ctl[c.running := c.ctl[c.running]] == c.ctl;
  }

  lemma DyingWoken(s: Sys)
    requires Core(s) && s.state[s.running] == Running
    ensures var done := Wake(Dying(s), ThreadQueue(s.running), 1);
            Core(done) && done.state[done.running] == Exited && done.ctl == s.ctl
  {
    DyingKeeps(s);
    WakeKeeps(Dying(s), ThreadQueue(s.running), 1);
    WakeQueues(Dying(s), ThreadQueue(s.running), 1);
  }

  lemma LeavingInv(s: Sys)
    requires Core(s) && s.state[s.running] == Exited && s.ctl[s.running] == [] && s.ready != []
    ensures Inv(Push(s, ExitYield))
  {
    OthersUnaffected(s.running, s.state, s.ctl, s.userMask, Exited, [ExitYield]);
    assert s.state[s.running := Exited] == s.state;
    assert [] + [ExitYield] == [ExitYield];
  }

  lemma ExitKeeps(s: Sys)
    requires Core(s) && s.state[s.running] == Running && s.ctl[s.running] == [] && s.status == Live
    ensures ThreadExit(s).status == Live ==> Inv(ThreadExit(s))
    ensures ThreadExit(s).status != Aborted
    ensures Slots(ThreadExit(s))
  {
    DyingWoken(s);
    var done := Wake(Dying(s), ThreadQueue(s.running), 1);
    if done.ready != [] {
      LeavingInv(done);
    }
  }

  // ---------- Sleeping, waking, yielding ----------

  lemma BlockLocking(s: Sys, q: WaitQueue)
    requires Locking(s) && (q.LockQueue? && q.id in s.locks ==> s.locks[q.id].acquired)
    ensures Locking(Block(s, q))
  {
    forall l | l in s.locks && !s.locks[l].acquired ensures At(Asleep(s, q).wait, LockQueue(l)) == [] {
    }
  }

  lemma BlockInUse(s: Sys, q: WaitQueue)
    requires InUse(s) && s.ready != []
    requires q.LockQueue? && q.id in s.locks ==> s.locks[q.id].acquired
    ensures Inv(Block(s, q)) && Block(s, q).status == s.status
  {
    BlockKeeps(s, q);
    BlockLocking(s, q);
  }

  lemma WakeInUse(s: Sys, q: WaitQueue, all: int)
    requires InUse(s) && !q.LockQueue?
    ensures InUse(Wake(s, q, all))
  {
    WakeKeeps(s, q, all);
    WakeQueues(s, q, all);
  }

  // ---------- Locks ----------

  lemma AcquiredExclusive(locks: map<nat, Lock>, held: LockSets, l: nat, t: Tid)
    requires Exclusive(locks, held) && l in locks && !locks[l].acquired
    ensures Exclusive(locks[l := Lock(true, t)], held[t := held[t] + {l}])
  {
  }

  lemma LoopingInUse(s: Sys, lock: nat, prev: bool)
    requires Core(s) && s.state[s.running] == Running && Returns(s.ctl[s.running], prev, s.userMask[s.running])
    requires Open(s.ctl[s.running]) && !s.mask
    ensures InUse(Push(s, AcquireLoop(lock, prev)))
  {
    var looping := Push(s, AcquireLoop(lock, prev));
    PushedReturns(s.ctl[s.running], AcquireLoop(lock, prev), s.mask);
    PushedNested(s.ctl[s.running], AcquireLoop(lock, prev), prev, s.mask);
    OthersUnaffected(s.running, s.state, s.ctl, s.userMask, Running, looping.ctl[s.running]);
    assert s.state[s.running := Running] == s.state;
  }

  lemma AcquireTurnKeeps(s: Sys, lock: nat, prev: bool)
    requires Core(s) && s.state[s.running] == Running && lock in s.locks && !s.mask
    requires Returns(s.ctl[s.running], prev, s.userMask[s.running]) && Open(s.ctl[s.running])
    ensures Inv(AcquireTurn(s, lock, prev)) && AcquireTurn(s, lock, prev).status == s.status
  {
    if s.locks[lock].acquired {
      LoopingInUse(s, lock, prev);
      var looping := Push(s, AcquireLoop(lock, prev));
      if s.ready == [] {
        InUseIsInv(AcquireTurn(s, lock, prev));
      } else {
        BlockInUse(looping, LockQueue(lock));
      }
    } else {
      AcquiredExclusive(s.locks, s.held, lock, s.running);
      assert NoIdleWaiter(Taken(s, lock).locks, s.wait);
    }
  }

  lemma ReleaseKeeps(s: Sys, lock: nat)
    requires InUse(s) && lock in s.locks && Owns(s, lock)
    ensures InUse(LockRelease(s, lock)) && LockRelease(s, lock).status == s.status
  {
    var u := Unlocked(s, lock);
    var at := PlacesOf(s);
    WakeKeeps(u, LockQueue(lock), 1);
    WakeQueues(u, LockQueue(lock), 1);
    assert Exclusive(u.locks, u.held);
  }

  // ---------- Resuming inside the library ----------

  lemma CvFrameReturns(stack: seq<Frame>, f: Frame, mask: bool, userMask: bool)
    requires Returns(stack, mask, userMask) && Open(stack) && InCv(f)
    ensures Returns(stack + [f], mask, userMask)
  {
    hide Nested, MaskOnReturn, Ordinary;
    PushedReturns(stack, f, mask);
    PushedNested(stack, f, mask, mask);
  }

  lemma PushInUse(s: Sys, f: Frame)
    requires InUse(s) && Open(s.ctl[s.running]) && InCv(f)
    ensures InUse(Push(s, f))
  {
    CvFrameReturns(s.ctl[s.running], f, s.mask, s.userMask[s.running]);
    hide Arranged, StacksOwned, ExitsFlagged, Exclusive, NoIdleWaiter, InOrder, Returns;
  }

  lemma SleepKeeps(s: Sys, queue: Option<WaitQueue>)
    requires InUse(s) && (queue.Some? ==> !queue.value.LockQueue?)
    ensures Inv(ThreadSleep(s, queue)) && ThreadSleep(s, queue).status == s.status
  {
    if queue.Some? && s.ready != [] {
      BlockInUse(s, queue.value);
    } else {
      var at := PlacesOf(s);
    }
  }

  lemma WaitingInUse(s: Sys, tid: Tid)
    requires InUse(s) && Open(s.ctl[s.running])
    ensures InUse(Push(s, WaitResume(s.mask, tid)).(mask := false))
  {
    hide Arranged, StacksOwned, ExitsFlagged, Exclusive, NoIdleWaiter, InOrder;
    var stack := s.ctl[s.running];
    PushedReturns(stack, WaitResume(s.mask, tid), false);
    PushedNested(stack, WaitResume(s.mask, tid), s.mask, false);
    OthersUnaffected(s.running, s.state, s.ctl, s.userMask, Running, stack + [WaitResume(s.mask, tid)]);
    assert s.state[s.running := Running] == s.state;
  }

  lemma WaitKeeps(s: Sys, tid: int)
    requires InUse(s) && Open(s.ctl[s.running])
    ensures Inv(ThreadWait(s, tid)) && ThreadWait(s, tid).status == s.status
  {
    if !IsTid(tid) || s.state[tid] == NotInitialized || tid == s.running {
      ReturnInUse(s, THREAD_INVALID);
    } else if s.ready == [] {
      ReturnInUse(s, tid);
    } else {
      WaitingInUse(s, tid);
      BlockInUse(Push(s, WaitResume(s.mask, tid)).(mask := false), ThreadQueue(tid));
    }
  }

  // ---------- One step ----------

  /** The mask in force once the innermost frame is gone. */
  function MaskBelow(f: Frame, mask: bool): bool {
    match f
    case Stub => true
    case YieldResume(prev, _) => prev
    case SleepResume(prev) => prev
    case WaitResume(prev, _) => prev
    case AcquireLoop(_, prev) => prev
    case HandlerResume(_) => true
    case _ => mask
  }

  /** The innermost call returns or goes on; what is below it still returns properly. */
  lemma PoppedReturns(s: Sys)
    requires InUse(s) && s.ctl[s.running] != []
    ensures Core(Pop(s)) && Returns(Pop(s).ctl[s.running], MaskBelow(Top(s), s.mask), s.userMask[s.running])
    ensures Top(s).YieldResume? || Top(s).SleepResume? || Open(Pop(s).ctl[s.running])
    ensures Critical(Top(s)) ==> !s.mask
  {
    var stack := s.ctl[s.running];
    var below := Pop(s).ctl[s.running];
    assert StaysClosed(stack, |stack| - 1, s.mask);
    assert |stack| > 1 ==> StaysClosed(stack, |stack| - 2, s.mask);
    OthersUnaffected(s.running, s.state, s.ctl, s.userMask, Running, below);
    assert s.state[s.running := Running] == s.state;
    forall i | 0 <= i < |below|
      ensures !Exiting(below[i]) && StaysClosed(below, i, MaskBelow(Top(s), s.mask))
    {
      assert below[i] == stack[i];
      assert StaysClosed(stack, i, s.mask);
    }
  }

  /** Whoever is inside the library, other than on its way out, is there on behalf of user code. */
  lemma InsideInUse(s: Sys)
    requires Inv(s) && s.ctl[s.running] != [] && !Exiting(Top(s))
    ensures InUse(s)
  {
  }

  /** A lock is released in cv_wait by a thread that no longer owns it. */
  predicate StaleRelease(s: Sys) {
    s.ctl[s.running] != [] && Top(s).CvRelease? && CanResume(s) && !Owns(s, Top(s).lock)
  }

  lemma ReturnsKeep(s: Sys)
    requires Inv(s) && CanResume(s) && s.status == Live
    requires var f := Top(s); f.Stub? || f.YieldResume? || f.SleepResume? || f.WaitResume? || f.HandlerResume?
    ensures Inv(Resume(s)) && Resume(s).status == Live
  {
    InsideInUse(s);
    PoppedReturns(s);
    InUseIsInv(Resume(s));
  }

  lemma CvReleaseKeeps(s: Sys)
    requires Inv(s) && CanResume(s) && s.status == Live && Top(s).CvRelease? && Owns(s, Top(s).lock)
    ensures Inv(Resume(s)) && Resume(s).status == Live
  {
    InsideInUse(s);
    PoppedReturns(s);
    var lock := Top(s).lock;
    ReleaseKeeps(Pop(s), lock);
    PushInUse(LockRelease(Pop(s), lock), CvSleep(Top(s).cv, lock));
    InUseIsInv(Resume(s));
  }

  lemma CvSleepKeeps(s: Sys)
    requires Inv(s) && CanResume(s) && s.status == Live && Top(s).CvSleep?
    ensures Inv(Resume(s)) && Resume(s).status == Live
  {
    InsideInUse(s);
    PoppedReturns(s);
    PushInUse(Pop(s), CvAcquire(Top(s).lock));
    SleepKeeps(Push(Pop(s), CvAcquire(Top(s).lock)), Some(CvQueue(Top(s).cv)));
  }

  lemma CvWakeupKeeps(s: Sys)
    requires Inv(s) && CanResume(s) && s.status == Live && Top(s).CvWakeup?
    ensures Inv(Resume(s)) && Resume(s).status == Live
  {
    InsideInUse(s);
    PoppedReturns(s);
    WakeInUse(Pop(s), CvQueue(Top(s).cv), Top(s).all);
    InUseIsInv(Resume(s));
  }

  lemma AcquiringKeeps(s: Sys)
    requires Inv(s) && CanResume(s) && s.status == Live && (Top(s).CvAcquire? || Top(s).AcquireLoop?)
    ensures Inv(Resume(s)) && Resume(s).status == Live
  {
    InsideInUse(s);
    PoppedReturns(s);
    if Top(s).CvAcquire? {
      AcquireTurnKeeps(Pop(s).(mask := false), Top(s).lock, s.mask);
    } else {
      AcquireTurnKeeps(Pop(s), Top(s).lock, Top(s).prev);
    }
  }

  lemma ExitYieldKeeps(s: Sys)
    requires Core(s) && s.state[s.running] == Exited && s.ready != []
    ensures Inv(YieldAny(Push(s, ExitAssert))) && YieldAny(Push(s, ExitAssert)).status == s.status
  {
    var leaving := Push(s, ExitAssert);
    OthersUnaffected(s.running, s.state, s.ctl, s.userMask, Exited, leaving.ctl[s.running]);
    assert s.state[s.running := Exited] == s.state;
    YieldAnyKeeps(leaving);
  }

  lemma PoppedCore(s: Sys)
    requires Core(s) && s.ctl[s.running] != []
    ensures Core(Pop(s))
  {
    OthersUnaffected(s.running, s.state, s.ctl, s.userMask, s.state[s.running], Pop(s).ctl[s.running]);
    assert s.state[s.running := s.state[s.running]] == s.state;
  }

  lemma ExitingKeeps(s: Sys)
    requires Inv(s) && CanResume(s) && s.status == Live && Exiting(Top(s))
    ensures Resume(s).status == Live ==> Inv(Resume(s))
    ensures Resume(s).status != Aborted
    ensures Slots(Resume(s))
  {
    hide ThreadExit, YieldAny, Placed, Slots, Fifo;
    PoppedCore(s);
    if s.state[s.running] == Running {
      assert s.ctl[s.running] == [ExitEntry];
      ExitKeeps(Pop(s));
    } else {
      ExitYieldKeeps(Pop(s));
    }
  }

  lemma HandlerEntered(s: Sys)
    requires Inv(s) && s.mask
    ensures var inside := Push(s, HandlerResume(s.ret[s.running])).(mask := false);
            Core(inside) && (s.state[s.running] == Running ==> RunnerReturns(inside))
  {
    var stack := s.ctl[s.running];
    var f := HandlerResume(s.ret[s.running]);
    OthersUnaffected(s.running, s.state, s.ctl, s.userMask, s.state[s.running], stack + [f]);
    assert s.state[s.running := s.state[s.running]] == s.state;
    if s.state[s.running] == Running {
      assert stack != [] ==> StaysClosed(stack, |stack| - 1, s.mask);
      PushedReturns(stack, f, false);
      PushedNested(stack, f, s.mask, false);
    }
  }

  /** `r` differs from `s` in neither locks nor wait queues. */
  predicate SameWaiting(s: Sys, r: Sys) {
    && r.locks == s.locks && r.held == s.held && r.wait == s.wait && r.slept == s.slept && r.woken == s.woken
    && r.heap == s.heap
  }

  lemma SwitchLeaves(s: Sys, next: Tid, prev: bool)
    ensures SameWaiting(s, Switch(s, next, prev)) && Switch(s, next, prev).status == s.status
  {
  }

  lemma YieldAnyLeaves(s: Sys)
    ensures SameWaiting(s, YieldAny(s))
    ensures s.status == Live ==> YieldAny(s).status in {Live, Aborted}
  {
    var queue := Requeued(s);
    if queue != [] && queue[0] != s.running {
      SwitchLeaves(Picked(s), queue[0], s.mask);
    }
  }

  /** thread_yield touches neither locks nor wait queues. */
  lemma YieldLeaves(s: Sys, want: int)
    ensures SameWaiting(s, ThreadYield(s, want))
    ensures s.status == Live ==> ThreadYield(s, want).status in {Live, Aborted}
  {
    if want == THREAD_ANY {
      YieldAnyLeaves(s);
    } else if Accepted(s, want) && Wanted(s, want) in Requeued(s) {
      var next: Tid := Wanted(s, want);
      SwitchLeaves(s.(ready := RemoveFirst<Tid>(Requeued(s), next)), next, s.mask);
    }
  }

  lemma InterruptKeeps(s: Sys)
    requires Inv(s) && s.mask
    ensures Inv(Interrupt(s)) && Interrupt(s).status == s.status
  {
    HandlerEntered(s);
    var inside := Push(s, HandlerResume(s.ret[s.running])).(mask := false);
    YieldAnyKeeps(inside);
    YieldAnyLeaves(inside);
  }

  lemma YieldKeeps(s: Sys, want: int)
    requires InUse(s) && s.status == Live
    ensures ThreadYield(s, want).status == Live ==> Inv(ThreadYield(s, want))
  {
    YieldLeaves(s, want);
    if want == THREAD_ANY {
      YieldAnyKeeps(s);
    } else {
      YieldToKeeps(s, want);
    }
  }

  lemma LockLifeKeeps(s: Sys, lock: nat)
    requires InUse(s)
    ensures lock !in s.locks && At(s.wait, LockQueue(lock)) == [] ==>
              InUse(s.(locks := s.locks[lock := Lock(false, THREAD_NONE)]))
    ensures lock in s.locks && !s.locks[lock].acquired ==> InUse(s.(locks := s.locks - {lock}))
  {
  }

  /** A directed thread_yield fails its assertion exactly if it names a thread that was killed in its sleep. */
  lemma YieldAborts(s: Sys, want: int)
    requires InUse(s) && s.status == Live
    ensures ThreadYield(s, want).status == Aborted <==>
              IsTid(want) && want != s.running && s.state[want] == Killed && want !in s.ready
  {
    var at := PlacesOf(s);
    if want == THREAD_ANY {
      YieldAnyKeeps(s);
    }
  }

  /**
   The only ways to make an assertion of the library fail: yield to a thread
   that was killed in its sleep, release a lock or use it with a condition
   variable without being its last acquirer, destroy a lock that is taken, or
   destroy a condition variable that somebody waits for.
   */
  predicate Misuse(s: Sys, e: Event)
    requires Enabled(s, e)
  {
    match e
    case Yield(want) => IsTid(want) && want != s.running && s.state[want] == Killed && want !in s.ready
    case DestroyLock(lock) => s.locks[lock].acquired
    case Release(lock) => !Owns(s, lock)
    case WaitOnCv(_, lock) => !Owns(s, lock)
    case SignalCv(_, lock) => !Owns(s, lock)
    case BroadcastCv(_, lock) => !Owns(s, lock)
    case DestroyCv(cv) => At(s.wait, CvQueue(cv)) != []
    case Continue => StaleRelease(s)
    case _ => false
  }

  lemma ResumeKeeps(s: Sys)
    requires Inv(s) && CanResume(s) && s.status == Live
    ensures Resume(s).status == Live ==> Inv(Resume(s))
    ensures Resume(s).status == Aborted <==> StaleRelease(s)
    ensures Tidy(s, Resume(s))
  {
    if Exiting(Top(s)) {
      ExitingKeeps(s);
    } else {
      match Top(s) {
        case CvRelease(_, _) =>
          if !StaleRelease(s) { CvReleaseKeeps(s); }
        case CvSleep(_, _) => CvSleepKeeps(s);
        case CvAcquire(_) => AcquiringKeeps(s);
        case CvWakeup(_, _) => CvWakeupKeeps(s);
        case AcquireLoop(_, _) => AcquiringKeeps(s);
        case _ => ReturnsKeep(s);
      }
    }
  }

  predicate IsQueueCall(e: Event) {
    e.Yield? || e.Sleep? || e.Wakeup? || e.Wait?
  }

  lemma YieldCallKeeps(s: Sys, want: int)
    requires InUse(s) && s.status == Live
    ensures ThreadYield(s, want).status == Live ==> Inv(ThreadYield(s, want))
    ensures ThreadYield(s, want).status == Aborted <==>
              IsTid(want) && want != s.running && s.state[want] == Killed && want !in s.ready
    ensures Tidy(s, ThreadYield(s, want))
  {
    hide InUse, Inv;
    YieldKeeps(s, want);
    YieldAborts(s, want);
    YieldLeaves(s, want);
    if ThreadYield(s, want).status == Live {
      InvSlots(ThreadYield(s, want));
    } else {
      assert SameWaiting(s, ThreadYield(s, want));
    }
  }

  lemma InvSlots(s: Sys)
    requires Inv(s)
    ensures Slots(s)
  {
  }

  lemma WakeupCallKeeps(s: Sys, queue: Option<WaitQueue>, all: int)
    requires InUse(s) && (queue.Some? ==> !queue.value.LockQueue?)
    ensures Inv(ThreadWakeup(s, queue, all)) && ThreadWakeup(s, queue, all).status == s.status
  {
    if queue.Some? {
      WakeInUse(s, queue.value, all);
    } else {
    }
    InUseIsInv(ThreadWakeup(s, queue, all));
  }

  lemma QueueCallKeeps(s: Sys, e: Event)
    requires InUse(s) && s.ctl[s.running] == [] && Enabled(s, e) && IsQueueCall(e)
    ensures Step(s, e).status == Live ==> Inv(Step(s, e))
    ensures Step(s, e).status == Aborted <==> Misuse(s, e)
    ensures Tidy(s, Step(s, e))
  {
    match e {
      case Yield(want) => YieldCallKeeps(s, want);
      case Sleep(queue) => SleepKeeps(s, queue);
      case Wakeup(queue, all) => WakeupCallKeeps(s, queue, all);
      case Wait(tid) => WaitKeeps(s, tid);
    }
  }

  lemma SetMaskKeeps(s: Sys, on: bool)
    requires InUse(s) && s.ctl[s.running] == []
    ensures Inv(s.(mask := on, userMask := s.userMask[s.running := on]))
  {
  }

  lemma CreateCallKeeps(s: Sys, memory: Option<Addr>)
    requires InUse(s) && (memory.Some? ==> memory.value !in Cleanup(s).heap.live)
    ensures Inv(ThreadCreate(s, memory)) && ThreadCreate(s, memory).status == s.status
  {
    CreateKeeps(s, memory);
    InUseIsInv(ThreadCreate(s, memory));
  }

  lemma KillCallKeeps(s: Sys, tid: int)
    requires InUse(s)
    ensures Inv(ThreadKill(s, tid)) && ThreadKill(s, tid).status == s.status
  {
    KillKeeps(s, tid);
    InUseIsInv(ThreadKill(s, tid));
  }

  lemma LockCallKeeps(s: Sys, e: Event)
    requires InUse(s) && s.ctl[s.running] == [] && Enabled(s, e)
    requires e.CreateLock? || e.DestroyLock? || e.Acquire? || e.Release?
    ensures Step(s, e).status == Live ==> Inv(Step(s, e))
    ensures Step(s, e).status == Aborted <==> Misuse(s, e)
    ensures Tidy(s, Step(s, e))
  {
    match e {
      case CreateLock(lock) => LockLifeKeeps(s, lock); InUseIsInv(Step(s, e));
      case DestroyLock(lock) =>
        LockLifeKeeps(s, lock);
        if !s.locks[lock].acquired { InUseIsInv(Step(s, e)); }
      case Acquire(lock) => AcquireTurnKeeps(s.(mask := false), lock, s.mask);
      case Release(lock) => if Owns(s, lock) { ReleaseKeeps(s, lock); InUseIsInv(Step(s, e)); }
    }
  }

  lemma CvWakeKeeps(s: Sys, cv: nat, lock: nat, all: int)
    requires InUse(s) && s.ctl[s.running] == [] && lock in s.locks && s.status == Live
    ensures CvWake(s, cv, lock, all).status == Live ==> Inv(CvWake(s, cv, lock, all))
    ensures CvWake(s, cv, lock, all).status == Aborted <==> !Owns(s, lock)
  {
    if Owns(s, lock) {
      PushInUse(s, CvWakeup(cv, all));
      InUseIsInv(CvWake(s, cv, lock, all));
    } else {
    }
  }

  lemma CvWaitKeeps(s: Sys, cv: nat, lock: nat)
    requires InUse(s) && s.ctl[s.running] == [] && Enabled(s, WaitOnCv(cv, lock))
    ensures var e := WaitOnCv(cv, lock);
            && (Step(s, e).status == Live ==> Inv(Step(s, e)))
            && (Step(s, e).status == Aborted <==> Misuse(s, e))
            && Tidy(s, Step(s, e))
  {
    if Owns(s, lock) {
      PushInUse(s, CvRelease(cv, lock));
      InUseIsInv(Push(s, CvRelease(cv, lock)));
    }
  }

  lemma CvCallKeeps(s: Sys, e: Event)
    requires InUse(s) && s.ctl[s.running] == [] && Enabled(s, e)
    requires e.WaitOnCv? || e.SignalCv? || e.BroadcastCv? || e.DestroyCv?
    ensures Step(s, e).status == Live ==> Inv(Step(s, e))
    ensures Step(s, e).status == Aborted <==> Misuse(s, e)
    ensures Tidy(s, Step(s, e))
  {
    hide InUse, Inv;
    match e {
      case WaitOnCv(cv, lock) => CvWaitKeeps(s, cv, lock);
      case SignalCv(cv, lock) => CvWakeKeeps(s, cv, lock, 0);
      case BroadcastCv(cv, lock) => CvWakeKeeps(s, cv, lock, 1);
      case DestroyCv(_) => InUseIsInv(s);
    }
  }

  lemma CallKeeps(s: Sys, e: Event)
    requires InUse(s) && s.ctl[s.running] == [] && Enabled(s, e) && !e.TimerInterrupt? && !e.Continue?
    ensures Step(s, e).status == Live ==> Inv(Step(s, e))
    ensures Step(s, e).status == Aborted <==> Misuse(s, e)
    ensures Tidy(s, Step(s, e))
  {
    if e.SetMask? {
      SetMaskKeeps(s, e.on);
    } else if e.Create? {
      CreateCallKeeps(s, e.memory);
    } else if e.Kill? {
      KillCallKeeps(s, e.victim);
    } else if e.Exit? {
      ExitKeeps(s);
    } else if IsQueueCall(e) {
      QueueCallKeeps(s, e);
    } else if e.WaitOnCv? || e.SignalCv? || e.BroadcastCv? || e.DestroyCv? {
      CvCallKeeps(s, e);
    } else {
      LockCallKeeps(s, e);
    }
  }

  /** Every step keeps the invariant, and an assertion of the library fails exactly on misuse. */
  lemma StepKeeps(s: Sys, e: Event)
    requires Inv(s) && Enabled(s, e)
    ensures Step(s, e).status == Live ==> Inv(Step(s, e))
    ensures Step(s, e).status == Aborted <==> Misuse(s, e)
    ensures Tidy(s, Step(s, e))
  {
    if e.TimerInterrupt? {
      InterruptKeeps(s);
    } else if e.Continue? {
      ResumeKeeps(s);
    } else {
      UserCodeInUse(s);
      CallKeeps(s, e);
    }
  }

  lemma InitInv(interruptsOn: bool)
    ensures Inv(Init(interruptsOn))
    ensures var s := Init(interruptsOn);
            && s.status == Live && s.running == 0 && s.mask == interruptsOn && s.ctl[0] == [] && s.ready == []
            && (forall t: Tid :: t != 0 ==> s.state[t] == NotInitialized) && s.locks == map[]
  {
    var s := Init(interruptsOn);
    assert PlacedAt(s, seq(1024, i => if i == 0 then OnCpu else Nowhere));
  }
}
