/** What holds in every reachable state of the thread system, under every schedule. */
module ThreadTheorems {
  import opened Sequences
  import opened ThreadSystem
  import opened ThreadPlaces
  import opened ThreadInvariants
  import opened ThreadSteps

  ghost predicate Reachable(s: Sys) {
    s.status == Live && exists on, es :: Possible(Init(on), es) && Run(Init(on), es) == s
  }

  lemma {:induction false} RunKeeps(s: Sys, es: seq<Event>)
    requires Inv(s) && Possible(s, es) && Run(s, es).status == Live
    ensures Inv(Run(s, es))
    decreases |es|
  {
    if es != [] {
      StepKeeps(s, es[0]);
      if |es| > 1 {
        assert Enabled(Step(s, es[0]), es[1..][0]);
      }
      RunKeeps(Step(s, es[0]), es[1..]);
    }
  }

  lemma ReachableInv(s: Sys)
    requires Reachable(s)
    ensures Inv(s)
  {
    var on, es :| Possible(Init(on), es) && Run(Init(on), es) == s;
    InitInv(on);
    RunKeeps(Init(on), es);
  }

  lemma ReachablePlaced(s: Sys)
    requires Reachable(s)
    ensures Placed(s)
  {
    ReachableInv(s);
  }

  // ---------- One place per thread ----------

  lemma {:induction false} OccursOnce(s: seq<Tid>, t: Tid)
    requires Distinct(s)
    ensures multiset(s)[t] == if t in s then 1 else 0
  {
    if s != [] {
      assert s == [s[0]] + s[1..];
      assert s[0] !in s[1..];
      OccursOnce(s[1..], t);
    }
  }

  /** How often `t` stands in a queue other than `q`. */
  ghost predicate NoOtherQueue(s: Sys, t: Tid, q: WaitQueue) {
    forall p :: p != q ==> t !in At(s.wait, p)
  }

  ghost predicate WaitsOnce(s: Sys, t: Tid) {
    t !in s.ready && exists q :: multiset(At(s.wait, q))[t] == 1 && NoOtherQueue(s, t, q)
  }

  ghost predicate ReadyOnce(s: Sys, t: Tid) {
    multiset(s.ready)[t] == 1 && forall q :: t !in At(s.wait, q)
  }

  ghost predicate InNoQueue(s: Sys, t: Tid) {
    t !in s.ready && forall q :: t !in At(s.wait, q)
  }

  lemma PlaceShows(s: Sys, at: Places, t: Tid)
    requires PlacedAt(s, at)
    ensures at[t] in {OnCpu, Nowhere} ==> InNoQueue(s, t)
    ensures at[t] == InReady ==> ReadyOnce(s, t)
    ensures at[t].Waiting? ==> WaitsOnce(s, t)
  {
    OccursOnce(s.ready, t);
    if at[t].Waiting? {
      OccursOnce(At(s.wait, at[t].queue), t);
      assert NoOtherQueue(s, t, at[t].queue);
    }
  }

  /** The state of a thread says in which single place it is. */
  lemma ExactlyOnePlace(s: Sys, t: Tid)
    requires Reachable(s)
    ensures s.state[t] == Running ==> t == s.running && InNoQueue(s, t)
    ensures s.state[t] == Ready ==> t != s.running && ReadyOnce(s, t)
    ensures s.state[t] == Sleeping ==> t != s.running && WaitsOnce(s, t)
    ensures s.state[t] == Killed ==> t != s.running && (ReadyOnce(s, t) || WaitsOnce(s, t))
    ensures s.state[t] in {NotInitialized, Exited} ==> InNoQueue(s, t)
    ensures t == s.running ==> s.state[t] == Running || (s.state[t] == Exited && s.ctl[t] == [ExitYield])
  {
    assert Placed(s) && Control(s) && s.state[s.running] in {Running, Exited} by { ReachableInv(s); }
    var at := PlacesOf(s);
    PlaceShows(s, at, t);
  }

  // ---------- Assertions ----------

  /** On every run an assertion of the library fails exactly if its user misuses it. */
  lemma AssertionsFailOnMisuseOnly(s: Sys, e: Event)
    requires Reachable(s) && Enabled(s, e)
    ensures Step(s, e).status == Aborted <==> Misuse(s, e)
  {
    ReachableInv(s);
    StepKeeps(s, e);
  }

  // ---------- Locks ----------

  /** Two threads are never both between acquiring and releasing the same lock. */
  lemma MutualExclusion(s: Sys, t: Tid, u: Tid, lock: nat)
    requires Reachable(s) && lock in s.held[t] && lock in s.held[u]
    ensures t == u && lock in s.locks && s.locks[lock] == Lock(true, t)
  {
    ReachableInv(s);
    assert s.locks[lock].acquiringThread == t;
    assert s.locks[lock].acquiringThread == u;
  }

  lemma YieldAnyDeepens(s: Sys)
    requires s.state[s.running] == Sleeping && s.ready != [] && s.ready[0] != s.running
    ensures |YieldAny(s).ctl[s.running]| == |s.ctl[s.running]| + 1
  {
  }

  lemma BlockDeepens(s: Sys, q: WaitQueue)
    requires s.ready != [] && s.ready[0] != s.running
    ensures |Block(s, q).ctl[s.running]| == |s.ctl[s.running]| + 2
    ensures Block(s, q).held == s.held && Block(s, q).locks == s.locks
  {
    YieldAnyDeepens(Asleep(s, q));
    YieldAnyLeaves(Asleep(s, q));
  }

  /** The loop of lock_acquire is left exactly with the lock. */
  lemma TurnReturnsWithLock(s: Sys, lock: nat, prev: bool)
    requires Placed(s) && s.state[s.running] == Running && lock in s.locks
    ensures var r := AcquireTurn(s, lock, prev);
            && (r.ctl[s.running] == s.ctl[s.running] <==> !s.locks[lock].acquired)
            && (!s.locks[lock].acquired ==> r.running == s.running && r.mask == prev && lock in r.held[s.running])
            && (s.locks[lock].acquired ==> r.held == s.held && r.locks == s.locks)
  {
    if s.locks[lock].acquired && s.ready != [] {
      var at := PlacesOf(s);
      assert at[s.ready[0]] == InReady && at[s.running] == OnCpu;
      BlockDeepens(Push(s, AcquireLoop(lock, prev)), LockQueue(lock));
    }
  }

  /** lock_acquire hands out the lock exactly when it is free, and only then returns to its caller. */
  lemma AcquireReturnsWithLock(s: Sys, lock: nat)
    requires Reachable(s) && Enabled(s, Acquire(lock))
    ensures var r := Step(s, Acquire(lock));
            && (r.ctl[s.running] == [] <==> !s.locks[lock].acquired)
            && (!s.locks[lock].acquired ==> r.running == s.running && r.mask == s.mask && lock in r.held[s.running])
            && (s.locks[lock].acquired ==> r.held == s.held && r.locks == s.locks)
  {
    ReachableInv(s);
    TurnReturnsWithLock(s.(mask := false), lock, s.mask);
  }

  /** The same for a thread that comes back to the loop after a wakeup, or to lock_acquire from within cv_wait. */
  lemma ReacquireReturnsWithLock(s: Sys)
    requires Reachable(s) && Enabled(s, Continue) && (Top(s).AcquireLoop? || Top(s).CvAcquire?)
    ensures var r := Step(s, Continue);
            var lock := Top(s).lock;
            && (r.ctl[s.running] == Pop(s).ctl[s.running] <==> !s.locks[lock].acquired)
            && (!s.locks[lock].acquired ==> r.running == s.running && lock in r.held[s.running])
            && (s.locks[lock].acquired ==> r.held == s.held && r.locks == s.locks)
  {
    ReachableInv(s);
    if Top(s).CvAcquire? {
      TurnReturnsWithLock(Pop(s).(mask := false), Top(s).lock, s.mask);
    } else {
      TurnReturnsWithLock(Pop(s), Top(s).lock, Top(s).prev);
    }
  }

  /**
   Releasing is not checked against holding: whoever has released a lock, and
   has not been followed by another holder, may release it again. This passes
   the assertion, and does nothing.
   */
  lemma DoubleReleasePasses(s: Sys, lock: nat)
    requires Reachable(s) && Enabled(s, Release(lock)) && lock in s.held[s.running]
    ensures var r := Step(s, Release(lock));
            && lock !in r.held[s.running] && r.running == s.running
            && Enabled(r, Release(lock)) && Step(r, Release(lock)) == r
  {
    ReachableInv(s);
    hide Reachable, Inv;
    ReleaseTwice(s, lock);
  }

  lemma ReleaseTwice(s: Sys, lock: nat)
    requires lock in s.locks && Owns(s, lock)
    ensures var r := LockRelease(s, lock);
            && lock in r.locks && lock !in r.held[s.running] && Owns(r, lock) && r.running == s.running
            && r.status == s.status && r.ctl == s.ctl && LockRelease(r, lock) == r
  {
    hide Woken;
    var q := LockQueue(lock);
    var r := LockRelease(s, lock);
    assert At(r.wait, q) == [];
    assert r.held[s.running] - {lock} == r.held[s.running];
    assert Unlocked(r, lock).held == r.held && Unlocked(r, lock).locks == r.locks;
  }

  // ---------- A lock that nobody can give back ----------

  /** The running thread tries again and again to take a taken lock, with interrupts off and nobody else ready. */
  ghost predicate Spins(s: Sys, lock: nat, prev: bool) {
    && s.status == Live && !s.mask && s.ready == [] && lock in s.locks && s.locks[lock].acquired
    && s.ctl[s.running] == [AcquireLoop(lock, prev)] && s.ret[s.running] == THREAD_NONE
  }

  lemma SpinsOn(s: Sys, lock: nat, prev: bool)
    requires Spins(s, lock, prev)
    ensures Enabled(s, Continue) && (forall e :: Enabled(s, e) ==> e == Continue) && Step(s, Continue) == s
  {
    assert [AcquireLoop(lock, prev)][..0] == [];
    assert [] + [AcquireLoop(lock, prev)] == [AcquireLoop(lock, prev)];
    assert Push(Pop(s), AcquireLoop(lock, prev)).ctl == s.ctl;
    assert Step(s, Continue).ret == s.ret;
  }

  lemma {:induction false} RunSpins(s: Sys, es: seq<Event>, lock: nat, prev: bool)
    requires Spins(s, lock, prev) && Possible(s, es)
    ensures Run(s, es) == s
    decreases |es|
  {
    hide Enabled, Step;
    if es == [] {
    } else {
      SpinsOn(s, lock, prev);
      RunSpins(s, es[1..], lock, prev);
    }
  }

  /** On every run the thread keeps the processor and never gets back to user code. */
  ghost predicate NeverLeaves(s: Sys, t: Tid) {
    forall es :: Possible(s, es) ==> Run(s, es).running == t && Run(s, es).ctl[t] != []
  }

  /**
   lock_acquire hangs the whole program, with interrupts off for good, exactly
   if the lock is taken and nobody else is ready: then thread_sleep refuses, and
   the loop never gives the processor to the holder.
   */
  lemma AcquireHangsExactly(s: Sys, lock: nat)
    requires Reachable(s) && Enabled(s, Acquire(lock))
    ensures var r := Step(s, Acquire(lock));
            && (NeverLeaves(r, s.running) <==> s.locks[lock].acquired && s.ready == [])
            && (NeverLeaves(r, s.running) ==>
                  && !r.mask && r.ctl[s.running] == [AcquireLoop(lock, s.mask)]
                  && forall es :: Possible(r, es) ==> Run(r, es) == r)
  {
    hide Reachable, Placed;
    var r := Step(s, Acquire(lock));
    UserCodeRuns(s);
    AcquireReturnsWithLock(s, lock);
    if s.locks[lock].acquired && s.ready == [] {
      assert [] + [AcquireLoop(lock, s.mask)] == [AcquireLoop(lock, s.mask)];
      forall es | Possible(r, es) ensures Run(r, es) == r {
        RunSpins(r, es, lock, s.mask);
      }
    } else {
      assert Possible(r, []) && Run(r, []) == r;
      if s.locks[lock].acquired {
        AcquireGivesWay(s, lock);
      }
    }
  }

  lemma AcquireGivesWay(s: Sys, lock: nat)
    requires Placed(s) && s.state[s.running] == Running && lock in s.locks && s.locks[lock].acquired && s.ready != []
    ensures LockAcquire(s, lock).running == s.ready[0] != s.running
  {
    var at := PlacesOf(s);
    assert at[s.ready[0]] == InReady && at[s.running] == OnCpu;
  }

  /** A free lock never has a thread waiting for it. */
  lemma NoLostLockWakeup(s: Sys, lock: nat)
    requires Reachable(s) && lock in s.locks && !s.locks[lock].acquired
    ensures At(s.wait, LockQueue(lock)) == []
  {
    ReachableInv(s);
  }

  // ---------- Wake order ----------

  /** On every wait queue threads are woken in the order in which they went to sleep. */
  lemma WakeOrderIsSleepOrder(s: Sys, q: WaitQueue)
    requires Reachable(s)
    ensures At(s.woken, q) <= At(s.slept, q)
    ensures At(s.slept, q)[|At(s.woken, q)|..] == At(s.wait, q)
  {
    ReachableInv(s);
    assert At(s.slept, q) == At(s.woken, q) + At(s.wait, q);
  }

  /** A sleeping thread becomes ready. */
  ghost predicate MakesReady(s: Sys, r: Sys) {
    exists t: Tid :: s.state[t] == Sleeping && r.state[t] == Ready
  }

  /** The wakeup of one thread, in thread_wakeup or in cv_signal. */
  predicate WakesOne(s: Sys, e: Event, q: WaitQueue) {
    || e == Wakeup(Some(q), 0)
    || (e == Continue && s.ctl[s.running] != [] && Top(s).CvWakeup? && Top(s).all == 0 && q == CvQueue(Top(s).cv))
  }

  /**
   The wakeup of one thread makes a sleeping thread ready exactly if the queue
   is not empty and its head was not killed: the one wakeup can be spent on a
   thread that will only exit, although others sleep behind it.
   */
  lemma WakeupReachesExactly(s: Sys, e: Event, q: WaitQueue)
    requires Reachable(s) && Enabled(s, e) && WakesOne(s, e, q)
    ensures MakesReady(s, Step(s, e)) <==> At(s.wait, q) != [] && s.state[At(s.wait, q)[0]] != Killed
  {
    hide Reachable, Placed, Wake;
    ReachablePlaced(s);
    HeadIsReached(s, q);
    if e.Continue? {
      assert Pop(s).state == s.state && Pop(s).wait == s.wait;
      WakeStates(s, Pop(s), q);
    }
  }

  lemma WakeStates(s: Sys, m: Sys, q: WaitQueue)
    requires m.state == s.state && m.wait == s.wait
    ensures Wake(m, q, 0).state == Wake(s, q, 0).state
  {
  }

  lemma HeadIsReached(s: Sys, q: WaitQueue)
    requires Placed(s)
    ensures MakesReady(s, Wake(s, q, 0)) <==> At(s.wait, q) != [] && s.state[At(s.wait, q)[0]] != Killed
  {
    var at := PlacesOf(s);
    if At(s.wait, q) != [] {
      var head := At(s.wait, q)[0];
      assert at[head] == Waiting(q);
      assert At(s.wait, q)[..1] == [head];
      assert s.state[head] != Killed ==> Wake(s, q, 0).state[head] == Ready;
    }
  }

  lemma UserCodeRuns(s: Sys)
    requires Reachable(s) && s.ctl[s.running] == []
    ensures Placed(s) && s.state[s.running] == Running
  {
    ReachableInv(s);
  }

  // ---------- Stacks ----------

  /** The allocated stacks are those of the slots in use; free was only ever called on allocated ones. */
  lemma StacksNeitherLeakedNorFreedTwice(s: Sys, a: Addr)
    requires Reachable(s)
    ensures !s.heap.badFree
    ensures a in s.heap.live <==> exists t: Tid :: s.state[t] != NotInitialized && s.stack[t] == Some(a)
    ensures forall t: Tid, u: Tid ::
              s.state[t] != NotInitialized && s.state[u] != NotInitialized && s.stack[t] == s.stack[u] == Some(a) ==>
                t == u
  {
    ReachableInv(s);
    if a in s.heap.live {
      var t: Tid :| Used(s.state[t]) && s.stack[t] == Some(a);
    }
  }

  /** The processor always has a stack under it: the running thread's own is still allocated. */
  lemma RunningStackIsAllocated(s: Sys)
    requires Reachable(s) && s.stack[s.running].Some?
    ensures s.stack[s.running].value in s.heap.live
  {
    ReachableInv(s);
    assert Used(s.state[s.running]);
  }

  predicate Available(x: ThreadState) {
    x == NotInitialized || x == Exited
  }

  /** After the cleanup a slot is free exactly if its thread had exited or never was. */
  lemma CleanupFrees(s: Sys)
    requires Slots(s)
    ensures FirstFree(Cleanup(s).state, 0) == 1024 <==> forall t: Tid :: !Available(s.state[t])
    ensures FirstFree(Cleanup(s).state, 0) < 1024 ==> Available(s.state[FirstFree(Cleanup(s).state, 0)])
  {
    CleanupSlots(s);
    var c := Cleanup(s);
    FirstFreeBound(c.state, 0);
    var i := FirstFree(c.state, 0);
    forall t: Tid ensures Available(s.state[t]) <==> c.state[t] == NotInitialized {
      assert c.state[t] == Reclaimed(s.state[t]);
    }
  }

  lemma CreateValue(s: Sys, memory: Option<Addr>)
    ensures ThreadCreate(s, memory).ret[s.running] ==
              var i := FirstFree(Cleanup(s).state, 0);
              if i == 1024 then THREAD_NOMORE else if memory.None? then THREAD_NOMEMORY else i
  {
    FirstFreeBound(Cleanup(s).state, 0);
  }

  /** thread_create finds no slot exactly if every slot holds a thread that has not exited. */
  lemma CreateFailsExactlyWhenFull(s: Sys, memory: Option<Addr>)
    requires Reachable(s) && Enabled(s, Create(memory))
    ensures var value := Step(s, Create(memory)).ret[s.running];
            && (value == THREAD_NOMORE <==> forall t: Tid :: !Available(s.state[t]))
            && (value == THREAD_NOMEMORY <==> memory.None? && exists t: Tid :: Available(s.state[t]))
            && (value >= 0 ==> IsTid(value) && Available(s.state[value]))
  {
    assert Slots(s) by { ReachableInv(s); }
    CleanupFrees(s);
    CreateValue(s, memory);
    FirstFreeBound(Cleanup(s).state, 0);
  }
}
