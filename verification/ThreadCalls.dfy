/** What each call of the thread library does for its caller, as its header file promises it. */
module ThreadCalls {
  import opened Sequences
  import opened ThreadSystem
  import opened ThreadPlaces
  import opened ThreadInvariants
  import opened ThreadSteps
  import opened ThreadTheorems

  lemma CallerRuns(s: Sys)
    requires Reachable(s) && s.ctl[s.running] == []
    ensures s.status == Live && Placed(s) && Slots(s) && s.state[s.running] == Running
    ensures s.running !in s.ready
  {
    ReachableInv(s);
    UserCodeRuns(s);
    var at := PlacesOf(s);
    assert at[s.running] == OnCpu;
  }

  // ---------- What a call leaves alone ----------

  /** Locks and stacks are as before. */
  predicate SameLocks(s: Sys, r: Sys) {
    r.locks == s.locks && r.held == s.held && r.stack == s.stack && r.heap == s.heap
  }

  /** Queue `q` has become `w`, and all other wait queues are as before. */
  ghost predicate OnlyQueue(s: Sys, r: Sys, q: WaitQueue, w: seq<Tid>) {
    At(r.wait, q) == w && forall p :: p != q ==> At(r.wait, p) == At(s.wait, p)
  }

  /** Of the threads in `block` those that slept are ready and those that were killed stay so; nobody else changes. */
  predicate OnlyWoken(s: Sys, r: Sys, block: seq<Tid>) {
    && (forall u: Tid :: u in block ==> r.state[u] == if s.state[u] == Killed then Killed else Ready)
    && (forall u: Tid :: u !in block ==> r.state[u] == s.state[u])
  }

  /** The caller is suspended in the given state, and the head of the ready queue runs; nobody else changes. */
  predicate TakenOver(s: Sys, r: Sys, mine: ThreadState)
    requires s.ready != []
  {
    && r.status == Live && r.running == s.ready[0] && !r.mask
    && r.state == s.state[s.running := mine][s.ready[0] := Running]
    && r.ready == s.ready[1..] + (if mine == Ready then [s.running] else [])
  }

  lemma BlockTakesOver(m: Sys, q: WaitQueue)
    requires m.status == Live && m.ready != [] && m.running !in m.ready
    ensures var c := Block(m, q);
            && TakenOver(m, c, Sleeping) && SameLocks(m, c)
            && c.wait == m.wait[q := At(m.wait, q) + [m.running]]
            && c.ctl[m.running] == m.ctl[m.running] + [SleepResume(m.mask), YieldResume(false, m.ready[0])]
  {
    var a := Asleep(m, q);
    assert m.ready[0] in m.ready;
    assert Requeued(a) == m.ready;
    assert Block(m, q) == Switch(Picked(a), m.ready[0], false);
    assert m.ctl[m.running] + [SleepResume(m.mask)] + [YieldResume(false, m.ready[0])] ==
      m.ctl[m.running] + [SleepResume(m.mask), YieldResume(false, m.ready[0])];
    assert m.ready[1..] + [] == m.ready[1..];
  }

  /** A woken block consists of sleeping and killed threads. */
  lemma WakeDoes(s: Sys, q: WaitQueue, all: int)
    requires Placed(s)
    ensures var r := Wake(s, q, all);
            var k := WakeCount(s, q, all);
            && k <= |At(s.wait, q)|
            && r.ready == s.ready + At(s.wait, q)[..k] && OnlyQueue(s, r, q, At(s.wait, q)[k..])
            && OnlyWoken(s, r, At(s.wait, q)[..k])
            && r.running == s.running && r.mask == s.mask && r.ctl == s.ctl && r.status == s.status && r.ret == s.ret
            && SameLocks(s, r)
  {
    var k := WakeCount(s, q, all);
    var w := At(s.wait, q);
    if k == 0 {
      assert s.ready + w[..0] == s.ready && w[0..] == w;
    } else {
      SleepersInQueue(s, q);
      assert forall u: Tid :: u in w[..k] ==> u in w;
    }
  }

  lemma SleepersInQueue(s: Sys, q: WaitQueue)
    requires Placed(s)
    ensures forall u: Tid :: u in At(s.wait, q) ==> s.state[u] in {Sleeping, Killed}
  {
    var at := PlacesOf(s);
    assert forall u: Tid :: u in At(s.wait, q) ==> Fits(s.state[u], at[u]) && at[u] == Waiting(q);
  }

  // ---------- Threads ----------

  /** The cleanup touches nothing but states and stacks. */
  lemma CleanupRest(s: Sys)
    ensures var c := Cleanup(s);
            && c.held == s.held && c.locks == s.locks && c.ret == s.ret
            && c.running == s.running && c.mask == s.mask && c.ready == s.ready && c.wait == s.wait && c.ctl == s.ctl
            && c.status == s.status && c.gen == s.gen && c.stack == s.stack
  {
  }

  /**
   thread_create: a new thread at the end of the ready queue, on a stack of its
   own, in the lowest slot that was available.
   */
  lemma CreateDoes(s: Sys, memory: Option<Addr>)
    requires Reachable(s) && Enabled(s, Create(memory)) && Step(s, Create(memory)).ret[s.running] >= 0
    ensures var r := Step(s, Create(memory));
            var t := r.ret[s.running];
            && IsTid(t) && t != s.running && Available(s.state[t]) && memory.Some?
            && (forall u: Tid :: u < t ==> !Available(s.state[u]))
            && r.state[t] == Ready && r.stack[t] == memory && r.ctl[t] == [Stub] && r.gen[t] == s.gen[t] + 1
            && r.ready == s.ready + [t] && r.running == s.running && r.mask == s.mask && r.ctl[s.running] == []
            && r.wait == s.wait && r.locks == s.locks
            && (forall u: Tid :: u != t ==>
                  r.state[u] == Reclaimed(s.state[u]) && r.ctl[u] == s.ctl[u] && r.gen[u] == s.gen[u])
  {
    hide Reachable, Placed, Slots, Cleanup;
    CallerRuns(s);
    CleanupSlots(s);
    CleanupRest(s);
    CreateFailsExactlyWhenFull(s, memory);
    FirstFreeBound(Cleanup(s).state, 0);
  }

  /** A thread_create that fails starts nobody. */
  lemma FailedCreateDoes(s: Sys, memory: Option<Addr>)
    requires Reachable(s) && Enabled(s, Create(memory)) && Step(s, Create(memory)).ret[s.running] < 0
    ensures var r := Step(s, Create(memory));
            && (forall u: Tid :: r.state[u] == Reclaimed(s.state[u])) && r.ready == s.ready && r.wait == s.wait
            && r.locks == s.locks && r.running == s.running && r.mask == s.mask && r.ctl == s.ctl && r.gen == s.gen
  {
    hide Reachable, Placed, Slots, Cleanup;
    CallerRuns(s);
    CleanupSlots(s);
    CleanupRest(s);
    FirstFreeBound(Cleanup(s).state, 0);
  }

  /** thread_kill: the named thread alone is marked, exactly if it exists, has not exited and is not the caller. */
  lemma KillDoes(s: Sys, victim: int)
    requires Reachable(s) && Enabled(s, Kill(victim))
    ensures var r := Step(s, Kill(victim));
            && (if IsTid(victim) && victim != s.running && !Available(s.state[victim])
                then r.ret[s.running] == victim && r.state[victim] == Killed
                else r.ret[s.running] == THREAD_INVALID)
            && (forall t: Tid :: t != victim ==> r.state[t] == Reclaimed(s.state[t]))
            && r.running == s.running && r.mask == s.mask && r.ready == s.ready && r.wait == s.wait && r.ctl == s.ctl
            && r.locks == s.locks
  {
    hide Reachable, Placed, Slots, Cleanup;
    CallerRuns(s);
    CleanupSlots(s);
    CleanupRest(s);
    if IsTid(victim) && victim != s.running && !Available(s.state[victim]) {
      assert Cleanup(s).state[victim] == s.state[victim];
    } else if IsTid(victim) && victim != s.running {
      assert Cleanup(s).state[victim] == NotInitialized;
    } else {
    }
  }

  lemma YieldAlone(s: Sys)
    requires s.ready == [] && s.state[s.running] == Running
    ensures YieldAny(s) == Return(s, THREAD_NONE).(picks := s.picks + 1)
  {
    assert Requeued(s) == [s.running];
    assert Requeued(s)[1..] == s.ready;
  }

  lemma YieldToFirst(s: Sys)
    requires s.ready != [] && s.ready[0] != s.running && s.state[s.running] == Running
    ensures Requeued(s) != [] && YieldAny(s) == Switch(Picked(s), s.ready[0], s.mask)
    ensures Picked(s).ready == s.ready[1..] + [s.running]
  {
    assert Requeued(s)[1..] == s.ready[1..] + [s.running];
  }

  /** thread_yield(THREAD_ANY): the head of the ready queue runs, the caller goes to the end; alone, it is told so. */
  lemma YieldAnyDoes(s: Sys)
    requires Reachable(s) && Enabled(s, Yield(THREAD_ANY))
    ensures var r := Step(s, Yield(THREAD_ANY));
            if s.ready == [] then
              r == Return(s, THREAD_NONE).(picks := s.picks + 1)
            else
              && TakenOver(s, r, Ready) && r.wait == s.wait && SameLocks(s, r)
              && r.ctl[s.running] == [YieldResume(s.mask, s.ready[0])]
  {
    hide Reachable, Placed, Slots, YieldAny, Requeued;
    CallerRuns(s);
    if s.ready == [] {
      YieldAlone(s);
    } else {
      assert s.ready[0] in s.ready;
      YieldToFirst(s);
    }
  }

  /** The threads in the ready queue are ready or killed, and all ready threads are there. */
  lemma QueuedCanRun(s: Sys)
    requires Placed(s)
    ensures forall t: Tid :: t in s.ready ==> s.state[t] in {Ready, Killed}
    ensures forall t: Tid :: s.state[t] == Ready ==> t in s.ready
  {
    var at := PlacesOf(s);
    assert forall t: Tid :: Fits(s.state[t], at[t]);
  }

  lemma YieldToQueued(s: Sys, want: int)
    requires want != THREAD_ANY && want != THREAD_SELF && want != s.running && s.state[s.running] == Running
    requires forall t: Tid :: t in s.ready ==> s.state[t] in {Ready, Killed}
    requires forall t: Tid :: s.state[t] == Ready ==> t in s.ready
    ensures ThreadYield(s, want) ==
              if IsTid(want) && want in s.ready then
                Switch(s.(ready := RemoveFirst<Tid>(s.ready, want) + [s.running]), want, s.mask)
              else if IsTid(want) && s.state[want] == Killed then Abort(s)
              else Return(s, THREAD_INVALID)
  {
    if IsTid(want) {
      if want in s.ready {
        RemoveFirstAppend<Tid>(s.ready, want, [s.running]);
      } else {
        assert want !in s.ready + [s.running];
      }
    }
  }

  /** thread_yield(tid): the thread asked for runs, wherever it is in the ready queue; the caller goes to the end. */
  lemma DirectedYieldDoes(s: Sys, want: int)
    requires Reachable(s) && Enabled(s, Yield(want)) && want != THREAD_ANY && want != THREAD_SELF && want != s.running
    ensures var r := Step(s, Yield(want));
            if IsTid(want) && want in s.ready then
              && r.status == Live && r.running == want && !r.mask
              && r.state == s.state[s.running := Ready][want := Running] && r.wait == s.wait && SameLocks(s, r)
              && r.ready == RemoveFirst<Tid>(s.ready, want) + [s.running]
              && r.ctl[s.running] == [YieldResume(s.mask, want)]
            else if IsTid(want) && s.state[want] == Killed then
              r.status == Aborted
            else
              r == Return(s, THREAD_INVALID)
  {
    hide Reachable, Slots, Placed, Requeued, ThreadYield;
    CallerRuns(s);
    QueuedCanRun(s);
    YieldToQueued(s, want);
  }

  /** thread_sleep: the caller goes to the end of the wait queue and the head of the ready queue, if any, runs. */
  lemma SleepDoes(s: Sys, queue: Option<WaitQueue>)
    requires Reachable(s) && Enabled(s, Sleep(queue))
    ensures var r := Step(s, Sleep(queue));
            if queue.None? then r == Return(s, THREAD_INVALID)
            else if s.ready == [] then r == Return(s, THREAD_NONE)
            else
              && TakenOver(s, r, Sleeping) && SameLocks(s, r)
              && OnlyQueue(s, r, queue.value, At(s.wait, queue.value) + [s.running])
  {
    hide Reachable, Placed, Slots, Block;
    CallerRuns(s);
    if queue.Some? && s.ready != [] {
      BlockTakesOver(s, queue.value);
    }
  }

  /**
   thread_wakeup moves a block off the front of the wait queue to the end of
   the ready queue, keeping its order: everybody, one thread, or nobody for
   any other argument. It returns the length of the block. A thread that was
   killed in its sleep stays killed, and nobody else is touched.
   */
  lemma WakeupDoes(s: Sys, queue: Option<WaitQueue>, all: int)
    requires Reachable(s) && Enabled(s, Wakeup(queue, all))
    ensures var r := Step(s, Wakeup(queue, all));
            if queue.None? then r == Return(s, 0)
            else
              var w := At(s.wait, queue.value);
              var k := r.ret[s.running];
              && 0 <= k <= |w| && k == (if all == 1 then |w| else if all == 0 && w != [] then 1 else 0)
              && r.ready == s.ready + w[..k] && OnlyQueue(s, r, queue.value, w[k..]) && OnlyWoken(s, r, w[..k])
              && r.running == s.running && r.mask == s.mask && r.ctl == s.ctl && r.status == Live && SameLocks(s, r)
  {
    hide Reachable, Placed, Slots, Wake;
    CallerRuns(s);
    if queue.Some? {
      WakeDoes(s, queue.value, all);
    }
  }

  /**
   thread_wait: the caller goes to the end of the awaited thread's queue and
   is to get its id back; but with no other thread ready it gets the id at
   once, without having waited.
   */
  lemma WaitDoes(s: Sys, tid: int)
    requires Reachable(s) && Enabled(s, Wait(tid))
    ensures var r := Step(s, Wait(tid));
            if !IsTid(tid) || tid == s.running || s.state[tid] == NotInitialized then r == Return(s, THREAD_INVALID)
            else if s.ready == [] then r == Return(s, tid)
            else
              && TakenOver(s, r, Sleeping) && SameLocks(s, r)
              && OnlyQueue(s, r, ThreadQueue(tid), At(s.wait, ThreadQueue(tid)) + [s.running])
              && r.ctl[s.running] == [WaitResume(s.mask, tid), SleepResume(false), YieldResume(false, s.ready[0])]
  {
    hide Reachable, Placed, Slots, Block;
    CallerRuns(s);
    if IsTid(tid) && s.ready != [] {
      BlockTakesOver(Push(s, WaitResume(s.mask, tid)).(mask := false), ThreadQueue(tid));
    }
  }

  lemma NotInOwnQueue(s: Sys)
    requires Placed(s) && s.state[s.running] == Running
    ensures forall q :: s.running !in At(s.wait, q)
  {
    var at := PlacesOf(s);
    assert at[s.running] == OnCpu;
  }

  /** What thread_exit does for everybody else, whoever calls it. */
  ghost predicate Leaves(s: Sys, r: Sys) {
    var me := s.running;
    var waiters := At(s.wait, ThreadQueue(me));
    && r.running == me && r.state[me] == Exited && r.cleanup && r.locks == s.locks
    && r.ready == s.ready + waiters && OnlyQueue(s, r, ThreadQueue(me), [])
    && (forall u: Tid :: u in waiters ==> r.state[u] == if s.state[u] == Killed then Killed else Ready)
    && (forall u: Tid :: u !in waiters && u != me ==> r.state[u] == Reclaimed(s.state[u]))
    && (r.status == Finished <==> s.ready + waiters == []) && (r.status == Live <==> s.ready + waiters != [])
  }

  lemma ExitLeaves(s: Sys)
    requires s.status == Live && Placed(s) && Slots(s) && s.state[s.running] == Running
    ensures Leaves(s, ThreadExit(s))
    ensures ThreadExit(s).status == Live ==> ThreadExit(s).ctl[s.running] == s.ctl[s.running] + [ExitYield]
  {
    hide Placed, Slots, Cleanup;
    CleanupRest(s);
    CleanupSlots(s);
    SleepersInQueue(s, ThreadQueue(s.running));
    NotInOwnQueue(s);
    var w := At(s.wait, ThreadQueue(s.running));
    assert w[..|w|] == w && w[|w|..] == [] && s.ready + [] == s.ready;
  }

  /** thread_exit: whoever waits for the caller becomes ready, in order; with no thread ready the program ends. */
  lemma ExitDoes(s: Sys)
    requires Reachable(s) && Enabled(s, Exit)
    ensures Leaves(s, Step(s, Exit))
    ensures Step(s, Exit).status == Live ==> Step(s, Exit).ctl[s.running] == [ExitYield]
  {
    hide Reachable, Placed, Slots, Leaves;
    CallerRuns(s);
    ExitLeaves(s);
  }

  /** A killed thread that is dispatched can only do the same. */
  lemma KilledExitDoes(s: Sys)
    requires Reachable(s) && s.ctl[s.running] == [ExitEntry]
    ensures Enabled(s, Continue) && (forall e :: Enabled(s, e) ==> e == Continue) && Leaves(s, Step(s, Continue))
  {
    EntryIsClean(s);
    hide Reachable, Placed, Slots, Leaves, ThreadExit;
    assert Top(s) == ExitEntry;
    ExitLeaves(Pop(s));
    LeavesBelow(s, Pop(s), ThreadExit(Pop(s)));
  }

  lemma EntryIsClean(s: Sys)
    requires Reachable(s) && s.ctl[s.running] == [ExitEntry]
    ensures Placed(s) && Slots(s) && !s.mask && s.state[s.running] == Running
  {
    ReachableInv(s);
    hide Reachable, Placed, Slots, Locking, Fifo;
  }

  lemma LeavesBelow(s: Sys, m: Sys, r: Sys)
    requires Leaves(m, r) && m == s.(ctl := m.ctl)
    ensures Leaves(s, r)
  {
  }

  /** An exiting thread leaves the processor in the next step, to the head of the ready queue and for good. */
  lemma ExitedGivesWay(s: Sys, e: Event)
    requires Reachable(s) && s.state[s.running] == Exited && Enabled(s, e)
    ensures s.ready != [] && TakenOver(s, Step(s, e), Exited) && Step(s, e).wait == s.wait && SameLocks(s, Step(s, e))
  {
    ReachableInv(s);
    var at := PlacesOf(s);
    assert s.ctl[s.running] == [ExitYield] && Top(s) == ExitYield;
    assert at[s.ready[0]] == InReady;
    hide Reachable, Inv, Placed, Slots;
    if e.TimerInterrupt? {
      DeadYields(Push(s, HandlerResume(s.ret[s.running])).(mask := false));
    } else {
      DeadYields(Push(Pop(s), ExitAssert));
    }
  }

  lemma DeadYields(m: Sys)
    requires m.status == Live && m.state[m.running] == Exited && m.ready != [] && m.ready[0] != m.running
    ensures TakenOver(m, YieldAny(m), Exited) && YieldAny(m).wait == m.wait && SameLocks(m, YieldAny(m))
  {
    assert Requeued(m) == m.ready;
    assert m.ready[1..] + [] == m.ready[1..];
    assert m.state[m.running := Exited] == m.state;
  }

  // ---------- Locks ----------

  /** A new lock is free and belongs to nobody; destroying a free lock undoes its creation, and touches nothing else. */
  lemma LockComesAndGoes(s: Sys, lock: nat)
    requires Reachable(s) && Enabled(s, CreateLock(lock))
    ensures var k := Step(s, CreateLock(lock));
            && k.locks == s.locks[lock := Lock(false, THREAD_NONE)] && k == s.(locks := k.locks)
            && Enabled(k, DestroyLock(lock)) && Step(k, DestroyLock(lock)) == s
  {
    hide Reachable;
    assert s.locks[lock := Lock(false, THREAD_NONE)] - {lock} == s.locks;
  }

  /** lock_destroy: exactly a free lock goes, and nothing else changes. */
  lemma DestroyLockDoes(s: Sys, lock: nat)
    requires Reachable(s) && Enabled(s, DestroyLock(lock))
    ensures var r := Step(s, DestroyLock(lock));
            if s.locks[lock].acquired then r.status == Aborted else r == s.(locks := s.locks - {lock})
  {
    if !s.locks[lock].acquired {
      NoLostLockWakeup(s, lock);
    }
  }

  /** cv_destroy: a condition variable that nobody waits for can go, and nothing else changes. */
  lemma DestroyCvDoes(s: Sys, cv: nat)
    requires Reachable(s) && Enabled(s, DestroyCv(cv))
    ensures var r := Step(s, DestroyCv(cv)); if At(s.wait, CvQueue(cv)) != [] then r.status == Aborted else r == s
  {
  }

  /** lock_release: the lock is free, and everybody who waits for it becomes ready, in order. */
  lemma ReleaseDoes(s: Sys, lock: nat)
    requires Reachable(s) && Enabled(s, Release(lock)) && Owns(s, lock)
    ensures var r := Step(s, Release(lock));
            var w := At(s.wait, LockQueue(lock));
            && r.status == Live && r.running == s.running && r.mask == s.mask && r.ctl == s.ctl
            && r.locks == s.locks[lock := Lock(false, s.running)] && lock !in r.held[s.running]
            && r.ready == s.ready + w && OnlyQueue(s, r, LockQueue(lock), []) && OnlyWoken(s, r, w)
  {
    hide Reachable, Placed, Slots;
    CallerRuns(s);
    ReleaseWakes(s, lock);
  }

  lemma ReleaseWakes(s: Sys, lock: nat)
    requires Placed(s) && lock in s.locks && Owns(s, lock)
    ensures var r := LockRelease(s, lock);
            var w := At(s.wait, LockQueue(lock));
            && r.status == s.status && r.running == s.running && r.mask == s.mask && r.ctl == s.ctl
            && r.locks == s.locks[lock := Lock(false, s.running)] && r.held == Unlocked(s, lock).held
            && r.ready == s.ready + w && OnlyQueue(s, r, LockQueue(lock), []) && OnlyWoken(s, r, w)
  {
    var w := At(s.wait, LockQueue(lock));
    WakeDoes(Unlocked(s, lock), LockQueue(lock), 1);
    assert w[..|w|] == w && w[|w|..] == [];
  }

  /** One turn of the loop in lock_acquire, with interrupts off. */
  ghost predicate Turned(s: Sys, r: Sys, lock: nat, prev: bool)
    requires lock in s.locks
  {
    if !s.locks[lock].acquired then
      && r.status == Live && r.running == s.running && r.mask == prev && r.state == s.state
      && r.ready == s.ready && r.wait == s.wait
      && r.locks == s.locks[lock := Lock(true, s.running)] && lock in r.held[s.running]
    else if s.ready == [] then
      && r.status == Live && r.running == s.running && !r.mask && r.state == s.state
      && r.ready == s.ready && r.wait == s.wait && SameLocks(s, r)
    else
      TakenOver(s, r, Sleeping) && SameLocks(s, r)
      && OnlyQueue(s, r, LockQueue(lock), At(s.wait, LockQueue(lock)) + [s.running])
  }

  lemma TurnTurns(s: Sys, lock: nat, prev: bool)
    requires s.status == Live && !s.mask && s.running !in s.ready && lock in s.locks
    ensures Turned(s, AcquireTurn(s, lock, prev), lock, prev)
  {
    hide Block;
    if !s.locks[lock].acquired {
    } else if s.ready == [] {
    } else {
      assert AcquireTurn(s, lock, prev) == Block(Push(s, AcquireLoop(lock, prev)), LockQueue(lock));
      hide AcquireTurn;
      TakenOverBelow(s, Push(s, AcquireLoop(lock, prev)), LockQueue(lock));
    }
  }

  lemma TakenOverBelow(s: Sys, m: Sys, q: WaitQueue)
    requires m == s.(ctl := m.ctl) && s.status == Live && s.ready != [] && s.running !in s.ready
    ensures TakenOver(s, Block(m, q), Sleeping) && SameLocks(s, Block(m, q))
    ensures OnlyQueue(s, Block(m, q), q, At(s.wait, q) + [s.running])
  {
    hide Block;
    BlockTakesOver(m, q);
  }

  /** lock_acquire takes a free lock; else the caller joins the lock's queue, or stays if nobody else is ready. */
  lemma AcquireDoes(s: Sys, lock: nat)
    requires Reachable(s) && Enabled(s, Acquire(lock))
    ensures Turned(s, Step(s, Acquire(lock)), lock, s.mask)
  {
    hide Reachable, Placed, Slots, AcquireTurn, Turned;
    CallerRuns(s);
    TurnTurns(s.(mask := false), lock, s.mask);
    TurnedBelow(s, s.(mask := false), Step(s, Acquire(lock)), lock, s.mask);
  }

  lemma TurnedBelow(s: Sys, m: Sys, r: Sys, lock: nat, prev: bool)
    requires lock in m.locks && Turned(m, r, lock, prev) && m == s.(ctl := m.ctl, mask := m.mask)
    ensures Turned(s, r, lock, prev)
  {
  }

  lemma RunnerIsNotReady(s: Sys)
    requires Placed(s) && s.state[s.running] in {Running, Exited}
    ensures s.running !in s.ready
  {
    var at := PlacesOf(s);
  }

  /** The same whenever a thread goes on inside lock_acquire, or enters it at the end of cv_wait. */
  lemma ReacquireDoes(s: Sys)
    requires Reachable(s) && Enabled(s, Continue) && (Top(s).AcquireLoop? || Top(s).CvAcquire?)
    ensures exists prev :: Turned(s, Step(s, Continue), Top(s).lock, prev)
  {
    assert Placed(s) && s.state[s.running] in {Running, Exited} && (Top(s).AcquireLoop? ==> !s.mask) by {
      ReachableInv(s);
      if Top(s).AcquireLoop? {
        LoopIsMasked(s);
      }
    }
    hide Reachable, Placed, Slots, AcquireTurn, Turned;
    RunnerIsNotReady(s);
    var m, prev := Pop(s).(mask := false), if Top(s).AcquireLoop? then Top(s).prev else s.mask;
    TurnTurns(m, Top(s).lock, prev);
    assert Step(s, Continue) == AcquireTurn(m, Top(s).lock, prev);
    TurnedBelow(s, m, Step(s, Continue), Top(s).lock, prev);
  }

  lemma LoopIsMasked(s: Sys)
    requires Inv(s) && CanResume(s) && Top(s).AcquireLoop?
    ensures !s.mask
  {
    hide Placed, Slots, Locking, Fifo;
    assert RunnerReturns(s);
    assert StaysClosed(s.ctl[s.running], |s.ctl[s.running]| - 1, s.mask);
  }

  // ---------- Condition variables ----------

  lemma CvWakeSteps(s: Sys, cv: nat, lock: nat, all: int)
    requires s.status == Live && s.ctl[s.running] == [] && lock in s.locks && Owns(s, lock)
    ensures var a := CvWake(s, cv, lock, all);
            a.status == Live && CanResume(a) && Resume(a) == Wake(s, CvQueue(cv), all)
  {
    hide Wake, Push, Pop, Top;
    PopPush(s, CvWakeup(cv, all));
  }

  lemma PopPush(s: Sys, f: Frame)
    ensures var a := Push(s, f);
            && a.running == s.running && a.status == s.status && a.ctl[s.running] != []
            && Top(a) == f && Pop(a) == s
  {
    var a := Push(s, f);
    assert a.ctl[s.running][..|s.ctl[s.running]|] == s.ctl[s.running];
    assert Pop(a).ctl == s.ctl;
  }

  /** cv_signal and cv_broadcast, uninterrupted: the first sleeper, or all of them, and nobody else, become ready. */
  lemma CvWakeDoes(s: Sys, e: Event, cv: nat, lock: nat)
    requires Reachable(s) && Enabled(s, e) && (e == SignalCv(cv, lock) || e == BroadcastCv(cv, lock)) && Owns(s, lock)
    ensures Enabled(Step(s, e), Continue)
    ensures var b := Step(Step(s, e), Continue);
            var w := At(s.wait, CvQueue(cv));
            var k := if e.BroadcastCv? then |w| else if w == [] then 0 else 1;
            && b.status == Live && b.running == s.running && b.mask == s.mask && b.ctl == s.ctl && SameLocks(s, b)
            && b.ready == s.ready + w[..k] && OnlyQueue(s, b, CvQueue(cv), w[k..]) && OnlyWoken(s, b, w[..k])
  {
    hide Reachable, Placed, Slots, Wake, CvWake, Resume, OnlyQueue, OnlyWoken, SameLocks;
    CallerRuns(s);
    var all := if e.BroadcastCv? then 1 else 0;
    CvWakeSteps(s, cv, lock, all);
    WakeDoes(s, CvQueue(cv), all);
  }
}
