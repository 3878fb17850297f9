/** thread_wait over whole runs: the caller comes back when the awaited thread has exited, or never slept. */
module ThreadWaits {
  import opened Sequences
  import opened ThreadSystem
  import opened ThreadPlaces
  import opened ThreadInvariants
  import opened ThreadSteps
  import opened ThreadProgress
  import opened ThreadTheorems
  import opened ThreadFates
  import opened ThreadCalls
  import opened ThreadReturns

  // ---------- Who leaves the queue of an awaited thread ----------

  /** Nobody leaves the queue of those who wait for `tid`. */
  predicate Stay(s: Sys, r: Sys, tid: Tid) {
    At(s.wait, ThreadQueue(tid)) <= At(r.wait, ThreadQueue(tid))
  }

  lemma AsleepStay(s: Sys, q: WaitQueue, tid: Tid)
    ensures Stay(s, Asleep(s, q), tid)
  {
  }

  lemma UntilYieldStay(s: Sys, e: Event, tid: Tid)
    requires Enabled(s, e) && UntilYield(s, e).Some?
    ensures Stay(s, UntilYield(s, e).value, tid)
  {
    match e {
      case Yield(_) =>
      case Sleep(queue) => AsleepStay(s, queue.value, tid);
      case Wait(t) => AsleepStay(Push(s, WaitResume(s.mask, t)).(mask := false), ThreadQueue(t), tid);
      case Acquire(lock) => QueueingStay(s, s.(mask := false), lock, s.mask, tid);
      case TimerInterrupt =>
      case Continue => ResumeUntilYieldStay(s, tid);
    }
  }

  lemma QueueingStay(s: Sys, m: Sys, lock: nat, prev: bool, tid: Tid)
    requires m.wait == s.wait
    ensures Stay(s, Queueing(m, lock, prev), tid)
  {
    AsleepStay(Push(m, AcquireLoop(lock, prev)), LockQueue(lock), tid);
  }

  lemma ResumeUntilYieldStay(s: Sys, tid: Tid)
    requires CanResume(s) && ResumeUntilYield(s).Some?
    ensures Stay(s, ResumeUntilYield(s).value, tid)
  {
    match Top(s) {
      case AcquireLoop(lock, prev) => QueueingStay(s, Pop(s), lock, prev, tid);
      case CvAcquire(lock) => QueueingStay(s, Pop(s).(mask := false), lock, s.mask, tid);
      case CvSleep(cv, lock) => AsleepStay(Push(Pop(s), CvAcquire(lock)), CvQueue(cv), tid);
      case ExitYield =>
    }
  }

  lemma WakeStay(s: Sys, q: WaitQueue, all: int, tid: Tid)
    requires q != ThreadQueue(tid)
    ensures Stay(s, Wake(s, q, all), tid)
  {
    if WakeCount(s, q, all) == 0 {
    } else {
    }
  }

  lemma ReleaseStay(s: Sys, lock: nat, tid: Tid)
    requires lock in s.locks
    ensures Stay(s, LockRelease(s, lock), tid)
  {
    if Owns(s, lock) {
      WakeStay(Unlocked(s, lock), LockQueue(lock), 1, tid);
    } else {
    }
  }

  lemma ExitStay(s: Sys, tid: Tid)
    requires s.state[s.running] == Running && s.running != tid
    ensures Stay(s, ThreadExit(s), tid)
  {
    hide Cleanup;
    CleanupRest(s);
    WakeStay(Dying(s), ThreadQueue(s.running), 1, tid);
    var done := Wake(Dying(s), ThreadQueue(s.running), 1);
    if done.ready == [] {
    } else {
    }
  }

  lemma TurnStay(s: Sys, lock: nat, prev: bool)
    requires lock in s.locks && !MustWait(s, lock)
    ensures AcquireTurn(s, lock, prev).wait == s.wait
  {
    if s.locks[lock].acquired {
    } else {
    }
  }

  lemma ResumeStay(s: Sys, tid: Tid)
    requires Inv(s) && CanResume(s) && ResumeUntilYield(s).None?
    requires !(Top(s).ExitEntry? && s.running == tid)
    ensures Stay(s, Resume(s), tid)
  {
    hide Inv, Resume;
    if Top(s).AcquireLoop? || Top(s).CvAcquire? {
      TakenStay(s);
    } else if Top(s).CvRelease? {
      ReleaseInWaitStay(s, tid);
    } else if Top(s).CvSleep? {
      RefusedSleepStay(s);
    } else if Top(s).CvWakeup? {
      CvWakeupStay(s, tid);
    } else if Top(s).ExitEntry? {
      ExitEntryStay(s, tid);
    } else {
      ReturningStay(s);
    }
  }

  lemma TakenStay(s: Sys)
    requires CanResume(s) && (Top(s).AcquireLoop? || Top(s).CvAcquire?) && !MustWait(s, Top(s).lock)
    ensures Resume(s).wait == s.wait
  {
    if Top(s).AcquireLoop? {
      TurnStay(Pop(s), Top(s).lock, Top(s).prev);
    } else {
      TurnStay(Pop(s).(mask := false), Top(s).lock, s.mask);
    }
  }

  lemma RefusedSleepStay(s: Sys)
    requires CanResume(s) && Top(s).CvSleep? && s.ready == []
    ensures Resume(s).wait == s.wait
  {
    assert Resume(s) == Return(Push(Pop(s), CvAcquire(Top(s).lock)), THREAD_NONE);
  }

  lemma CvWakeupStay(s: Sys, tid: Tid)
    requires CanResume(s) && Top(s).CvWakeup?
    ensures Stay(s, Resume(s), tid)
  {
    WakeStay(Pop(s), CvQueue(Top(s).cv), Top(s).all, tid);
  }

  lemma ExitEntryStay(s: Sys, tid: Tid)
    requires Inv(s) && CanResume(s) && Top(s).ExitEntry? && s.running != tid
    ensures Stay(s, Resume(s), tid)
  {
    EntryRuns(s);
    ExitStay(Pop(s), tid);
  }

  lemma ReturningStay(s: Sys)
    requires CanResume(s)
    requires CallsNothing(Top(s))
    ensures Resume(s).wait == s.wait
  {
    PlainReturns(s);
    hide Resume;
  }

  lemma EntryRuns(s: Sys)
    requires Inv(s) && CanResume(s) && Top(s).ExitEntry?
    ensures s.state[s.running] == Running && s.ctl[s.running] == [ExitEntry]
  {
    hide Placed, Slots, Locking, Fifo;
  }

  lemma ReleaseInWaitStay(s: Sys, tid: Tid)
    requires CanResume(s) && Top(s).CvRelease?
    ensures Stay(s, Resume(s), tid)
  {
    ReleaseStay(Pop(s), Top(s).lock, tid);
    if Owns(s, Top(s).lock) {
    } else {
    }
  }

  lemma CreateStay(s: Sys, memory: Option<Addr>)
    ensures ThreadCreate(s, memory).wait == s.wait
  {
    hide Cleanup;
    CleanupRest(s);
    FirstFreeBound(Cleanup(s).state, 0);
    var i := FirstFree(Cleanup(s).state, 0);
    if i == 1024 {
    } else if memory.None? {
    } else {
    }
  }

  lemma KillStay(s: Sys, victim: int)
    ensures ThreadKill(s, victim).wait == s.wait
  {
    hide Cleanup;
    CleanupRest(s);
    if !IsTid(victim) || victim == s.running || Cleanup(s).state[victim] == NotInitialized {
    } else {
    }
  }

  lemma CallStay(s: Sys, e: Event, tid: Tid)
    requires Inv(s) && Enabled(s, e) && UntilYield(s, e).None? && !e.Yield? && !e.Continue?
    requires !(e.Exit? && s.running == tid)
    ensures Stay(s, Step(s, e), tid)
  {
    match e {
      case SetMask(_) =>
      case Create(memory) => CreateStay(s, memory);
      case Exit =>
        UserCodeInUse(s);
        ExitStay(s, tid);
      case Kill(victim) => KillStay(s, victim);
      case Sleep(_) => RefusedStay(s, e);
      case Wait(_) => RefusedStay(s, e);
      case Wakeup(queue, all) =>
        if queue.Some? {
          WakeStay(s, queue.value, all, tid);
        } else {
        }
      case CreateLock(_) =>
      case DestroyLock(_) =>
      case Acquire(lock) => TurnStay(s.(mask := false), lock, s.mask);
      case Release(lock) => ReleaseStay(s, lock, tid);
      case WaitOnCv(_, _) =>
      case SignalCv(_, _) =>
      case BroadcastCv(_, _) =>
      case DestroyCv(_) =>
    }
  }

  lemma RefusedStay(s: Sys, e: Event)
    requires Enabled(s, e) && UntilYield(s, e).None? && (e.Sleep? || e.Wait?)
    ensures Step(s, e).wait == s.wait
  {
    if e.Wait? {
      assert Step(s, e) == Return(s, THREAD_INVALID) || Step(s, e) == Return(s, e.target);
    } else {
      assert Step(s, e) == Return(s, THREAD_INVALID) || Step(s, e) == Return(s, THREAD_NONE);
    }
  }

  /** The running thread enters thread_exit in this step. */
  predicate Exits(s: Sys, e: Event)
    requires Enabled(s, e)
  {
    e.Exit? || (e.Continue? && Top(s).ExitEntry?)
  }

  lemma StepStay(s: Sys, e: Event, tid: Tid)
    requires Inv(s) && Enabled(s, e) && !(Exits(s, e) && s.running == tid)
    ensures Stay(s, Step(s, e), tid)
  {
    if UntilYield(s, e).Some? {
      StepEndsInYield(s, e);
      UntilYieldStay(s, e, tid);
      YieldAnyLeaves(UntilYield(s, e).value);
    } else if e.Yield? {
      YieldLeaves(s, e.want);
    } else if e.Continue? {
      ResumeStay(s, tid);
    } else {
      CallStay(s, e, tid);
    }
  }

  lemma ExitingExits(s: Sys, e: Event)
    requires Inv(s) && Enabled(s, e) && Exits(s, e)
    ensures Step(s, e).state[s.running] == Exited
  {
    if e.Exit? {
      UserCodeInUse(s);
      ExitLocal(s);
    } else {
      EntryRuns(s);
      ExitLocal(Pop(s));
    }
  }

  // ---------- The awaited thread ----------

  /** The thread that was number `g` in slot `tid` has exited. */
  predicate Gone(s: Sys, tid: Tid, g: nat) {
    s.gen[tid] > g || s.state[tid] in {Exited, NotInitialized}
  }

  lemma StepGone(s: Sys, e: Event, tid: Tid, g: nat)
    requires Inv(s) && Enabled(s, e) && s.gen[tid] >= g
    ensures Step(s, e).gen[tid] >= g
    ensures Gone(s, tid, g) ==> Gone(Step(s, e), tid, g)
  {
    hide Enabled, Step;
    if tid == s.running {
      StepActs(s, e);
      if s.state[tid] == Exited {
        ExitedStays(s, e);
      }
    } else {
      StepMoves(s, e, tid);
    }
  }

  /** `t` still waits for `tid`, or `tid` has exited. */
  ghost predicate Waits(s: Sys, t: Tid, tid: Tid, g: nat) {
    s.gen[tid] >= g && (Gone(s, tid, g) || t in At(s.wait, ThreadQueue(tid)))
  }

  lemma StepWaits(s: Sys, e: Event, t: Tid, tid: Tid, g: nat)
    requires Inv(s) && Enabled(s, e) && Waits(s, t, tid, g)
    ensures Waits(Step(s, e), t, tid, g)
  {
    hide Inv, Enabled, Step;
    StepGone(s, e, tid, g);
    if Gone(s, tid, g) {
    } else if Exits(s, e) && s.running == tid {
      ExitingExits(s, e);
    } else {
      StepStay(s, e, tid);
    }
  }

  lemma {:induction false} RunWaits(s: Sys, es: seq<Event>, t: Tid, tid: Tid, g: nat)
    requires (s.status == Live ==> Inv(s)) && Possible(s, es) && Waits(s, t, tid, g)
    ensures Waits(Run(s, es), t, tid, g)
    decreases |es|
  {
    if es != [] {
      StepWaits(s, es[0], t, tid, g);
      StepKeeps(s, es[0]);
      RunWaits(Step(s, es[0]), es[1..], t, tid, g);
    }
  }

  /** The call is one that thread_wait accepts. */
  predicate MayWait(s: Sys, tid: int) {
    Enabled(s, Wait(tid)) && IsTid(tid) && tid != s.running && s.state[tid] != NotInitialized
  }

  lemma WaitStarts(s: Sys, tid: int)
    requires Reachable(s) && MayWait(s, tid) && (s.ready != [] || s.state[tid] == Exited)
    ensures var k := Step(s, Wait(tid)); k.status == Live && Inv(k) && Waits(k, s.running, tid, s.gen[tid])
  {
    hide Reachable, Inv, Step;
    ReachableInv(s);
    StepKeeps(s, Wait(tid));
    WaitDoes(s, tid);
    StepGone(s, Wait(tid), tid, s.gen[tid]);
  }

  lemma QueuedIsNotRunning(s: Sys, t: Tid, q: WaitQueue)
    requires Inv(s) && t in At(s.wait, q)
    ensures t != s.running
  {
    var at := PlacesOf(s);
  }

  /**
   When the caller of thread_wait runs again the awaited thread has exited:
   nobody but the awaited thread, in thread_exit, wakes those who wait for it.
   */
  lemma WaitReturnsAfterExit(s: Sys, tid: int, es: seq<Event>)
    requires Reachable(s) && MayWait(s, tid) && (s.ready != [] || s.state[tid] == Exited)
    requires Possible(Step(s, Wait(tid)), es)
    ensures var r := Run(Step(s, Wait(tid)), es);
            r.status == Live && r.running == s.running ==> Gone(r, tid, s.gen[tid])
  {
    hide Reachable, Inv, Enabled;
    WaitStarts(s, tid);
    var k := Step(s, Wait(tid));
    RunWaits(k, es, s.running, tid, s.gen[tid]);
    var r := Run(k, es);
    if r.status == Live && r.running == s.running {
      KeepsThroughRun(k, es);
      if s.running in At(r.wait, ThreadQueue(tid)) {
        QueuedIsNotRunning(r, s.running, ThreadQueue(tid));
      }
    }
  }

  /**
   A thread that waits for another one and is not killed comes back with the
   id of that thread, and with its mask.
   */
  lemma WaitReturns(s: Sys, tid: int, es: seq<Event>)
    requires Reachable(s) && MayWait(s, tid) && s.ready != []
    requires var k := Step(s, Wait(tid)); k.status == Live && Possible(k, es) && Away(k, es, s.running)
    requires var r := Run(Step(s, Wait(tid)), es); r.status == Live && r.running == s.running
    ensures var r := Run(Step(s, Wait(tid)), es);
            || r.ctl[s.running] == [ExitEntry]
            || (&& Enabled(r, Continue) && (forall e :: Enabled(r, e) ==> e == Continue)
                && var u := Step(r, Continue);
                   && Enabled(u, Continue) && (forall e :: Enabled(u, e) ==> e == Continue)
                   && var v := Step(u, Continue);
                      && Enabled(v, Continue) && (forall e :: Enabled(v, e) ==> e == Continue)
                      && var w := Step(v, Continue);
                         && w.running == s.running && w.ctl[s.running] == []
                         && w.ret[s.running] == tid && w.mask == s.mask)
  {
    assert s.ctl[s.running] == [];
    hide Reachable, Inv, Enabled, Step;
    var k := Step(s, Wait(tid));
    var stack := [WaitResume(s.mask, tid), SleepResume(false), YieldResume(false, s.ready[0])];
    ReachableInv(s);
    StepKeeps(s, Wait(tid));
    WaitDoes(s, tid);
    CallerRuns(s);
    WaitParks(s, k);
    RunParked(k, es, s.running, stack);
    var r := Run(k, es);
    if r.ctl[s.running] == stack {
      WaitUnwinds(r, s.mask, tid, s.ready[0]);
    }
  }

  lemma WaitParks(s: Sys, k: Sys)
    requires s.ready != [] && TakenOver(s, k, Sleeping) && s.running !in s.ready
    ensures k.running != s.running && k.state[s.running] == Sleeping
  {
    assert s.ready[0] in s.ready;
  }

  /** The last part of thread_yield, of thread_sleep and then of thread_wait. */
  lemma WaitUnwinds(s: Sys, prev: bool, tid: Tid, value: int)
    requires s.status == Live && !s.mask
    requires s.ctl[s.running] == [WaitResume(prev, tid), SleepResume(false), YieldResume(false, value)]
    ensures Enabled(s, Continue) && (forall e :: Enabled(s, e) ==> e == Continue)
    ensures var u := Step(s, Continue);
            && Enabled(u, Continue) && (forall e :: Enabled(u, e) ==> e == Continue)
            && var v := Step(u, Continue);
               && Enabled(v, Continue) && (forall e :: Enabled(v, e) ==> e == Continue)
               && var w := Step(v, Continue);
                  w.running == s.running && w.ctl[s.running] == [] && w.ret[s.running] == tid && w.mask == prev
  {
    OnlyContinues(s);
    assert s.ctl[s.running][..2] == [WaitResume(prev, tid), SleepResume(false)];
    var u := Step(s, Continue);
    OnlyContinues(u);
    assert u.ctl[s.running][..1] == [WaitResume(prev, tid)];
    var v := Step(u, Continue);
    OnlyContinues(v);
    assert v.ctl[s.running][..0] == [];
  }

  /** On every run the caller of thread_wait gets back to user code only after the awaited thread has exited. */
  ghost predicate WaitsForExit(s: Sys, tid: int)
    requires MayWait(s, tid)
  {
    forall es :: Possible(Step(s, Wait(tid)), es) ==>
      var r := Run(Step(s, Wait(tid)), es);
      r.status == Live && r.running == s.running && r.ctl[s.running] == [] ==> Gone(r, tid, s.gen[tid])
  }

  /**
   thread_wait waits for the exit of a thread exactly if some other thread is
   ready, or the awaited thread has exited already: otherwise thread_sleep
   refuses, and the caller gets the id back at once.
   */
  lemma WaitsForExitExactly(s: Sys, tid: int)
    requires Reachable(s) && MayWait(s, tid)
    ensures WaitsForExit(s, tid) <==> s.ready != [] || s.state[tid] == Exited
  {
    hide Reachable, Inv;
    if s.ready != [] || s.state[tid] == Exited {
      forall es | Possible(Step(s, Wait(tid)), es)
        ensures var r := Run(Step(s, Wait(tid)), es);
                r.status == Live && r.running == s.running && r.ctl[s.running] == [] ==> Gone(r, tid, s.gen[tid])
      {
        WaitReturnsAfterExit(s, tid, es);
      }
    } else {
      WaitDoes(s, tid);
      var k := Step(s, Wait(tid));
      CallerRuns(s);
      assert k == Return(s, tid);
      assert Possible(k, []) && Run(k, []) == k;
    }
  }
}
