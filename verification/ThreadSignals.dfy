/** Signals to a thread on its way from cv_wait's release of the lock into the queue of the condition variable. */
module ThreadSignals {
  import opened Sequences
  import opened ThreadSystem
  import opened ThreadPlaces
  import opened ThreadInvariants
  import opened ThreadSteps
  import opened ThreadTheorems
  import opened ThreadCalls
  import opened ThreadReturns
  import opened ThreadInterrupts

  // ---------- The window ----------

  /** cv_wait behind lock_release: the lock is free, its waiters are ready, and the caller is not in the queue. */
  function Window(s: Sys, cv: nat, lock: nat): Sys
    requires lock in s.locks && Owns(s, lock)
  {
    Push(LockRelease(s, lock), CvSleep(cv, lock))
  }

  lemma WindowIsReached(s: Sys, cv: nat, lock: nat)
    requires s.status == Live && s.ctl[s.running] == [] && lock in s.locks && Owns(s, lock)
    ensures var a := CvWait(s, cv, lock);
            CanResume(a) && a.status == Live && Resume(a) == Window(s, cv, lock)
  {
    var a := CvWait(s, cv, lock);
    assert Pop(a).ctl == s.ctl;
    assert Pop(a) == s;
  }

  lemma WindowIs(s: Sys, cv: nat, lock: nat)
    requires Placed(s) && s.state[s.running] == Running
    requires s.ctl[s.running] == [] && lock in s.locks && Owns(s, lock)
    ensures var b := Window(s, cv, lock);
            && b.running == s.running && b.mask == s.mask && b.status == s.status && !b.locks[lock].acquired
            && b.state[s.running] == Running && b.ctl[s.running] == [CvSleep(cv, lock)]
            && b.ready == s.ready + At(s.wait, LockQueue(lock)) && At(b.wait, CvQueue(cv)) == At(s.wait, CvQueue(cv))
            && s.running !in b.ready && s.running !in At(b.wait, CvQueue(cv))
  {
    NotInOwnQueue(s);
    var at := PlacesOf(s);
    var w := At(s.wait, LockQueue(lock));
    assert w[..|w|] == w && s.ready + [] == s.ready;
    assert [] + [CvSleep(cv, lock)] == [CvSleep(cv, lock)];
  }

  lemma InterruptSwitches(b: Sys)
    requires b.running !in b.ready && b.state[b.running] == Running
    ensures Interrupt(b).running != b.running <==> b.ready != []
    ensures Interrupt(b).wait == b.wait
  {
    var inside := Push(b, HandlerResume(b.ret[b.running])).(mask := false);
    assert Requeued(inside) == b.ready + [b.running];
    if b.ready == [] {
    } else {
      assert b.ready[0] in b.ready;
    }
  }

  /** The caller goes on into its sleep, or, with no other thread ready, out of cv_wait without any signal. */
  lemma WindowCloses(b: Sys, cv: nat, lock: nat)
    requires b.status == Live && b.state[b.running] == Running && b.ctl[b.running] == [CvSleep(cv, lock)]
    requires b.running !in b.ready
    ensures Enabled(b, Continue)
    ensures var c := Step(b, Continue);
            if b.ready == [] then
              && c.status == Live && c.running == b.running && c.ready == [] && c.wait == b.wait
              && c.ctl[b.running] == [CvAcquire(lock)]
            else
              && c.status == Live && c.running == b.ready[0] && c.state[b.running] == Sleeping
              && At(c.wait, CvQueue(cv)) == At(b.wait, CvQueue(cv)) + [b.running]
  {
    hide Block;
    assert [CvSleep(cv, lock)][..0] == [];
    assert [] + [CvAcquire(lock)] == [CvAcquire(lock)];
    var m := Push(Pop(b), CvAcquire(lock));
    assert Step(b, Continue) == ThreadSleep(m, Some(CvQueue(cv)));
    if b.ready == [] {
    } else {
      BlockTakesOver(m, CvQueue(cv));
    }
  }

  /**
   cv_wait, uninterrupted: first the lock is free and everybody who waits for it
   is ready; then the caller sleeps at the end of the queue of the condition
   variable, or, with nobody else ready, goes on.
   */
  lemma CvWaitDoes(s: Sys, cv: nat, lock: nat)
    requires Reachable(s) && Enabled(s, WaitOnCv(cv, lock)) && Owns(s, lock)
    ensures Enabled(Step(s, WaitOnCv(cv, lock)), Continue)
    ensures var b := Step(Step(s, WaitOnCv(cv, lock)), Continue);
            var w := At(s.wait, LockQueue(lock));
            && b.status == Live && b.running == s.running && b.mask == s.mask
            && b.locks == s.locks[lock := Lock(false, s.running)]
            && b.ready == s.ready + w && OnlyQueue(s, b, LockQueue(lock), []) && OnlyWoken(s, b, w)
            && Enabled(b, Continue)
            && var c := Step(b, Continue);
               if b.ready == [] then
                 c.running == s.running && c.wait == b.wait && c.state == b.state && c.locks == b.locks
               else
                 && TakenOver(b, c, Sleeping) && SameLocks(b, c)
                 && OnlyQueue(b, c, CvQueue(cv), At(b.wait, CvQueue(cv)) + [s.running])
  {
    hide Reachable, Slots, Placed, Window, OnlyQueue, OnlyWoken, SameLocks, Resume;
    CallerRuns(s);
    WindowIsReached(s, cv, lock);
    WindowIs(s, cv, lock);
    WindowWakes(s, cv, lock);
    WindowSleeps(Window(s, cv, lock), cv, lock);
  }

  lemma WindowWakes(s: Sys, cv: nat, lock: nat)
    requires Placed(s) && lock in s.locks && Owns(s, lock)
    ensures var b := Window(s, cv, lock);
            var w := At(s.wait, LockQueue(lock));
            && b.locks == s.locks[lock := Lock(false, s.running)]
            && b.ready == s.ready + w && OnlyQueue(s, b, LockQueue(lock), []) && OnlyWoken(s, b, w)
  {
    hide Placed, LockRelease;
    ReleaseWakes(s, lock);
  }

  lemma WindowSleeps(b: Sys, cv: nat, lock: nat)
    requires b.status == Live && b.ctl[b.running] == [CvSleep(cv, lock)] && b.running !in b.ready
    ensures Enabled(b, Continue)
    ensures var c := Step(b, Continue);
            if b.ready == [] then
              c.running == b.running && c.wait == b.wait && c.state == b.state && c.locks == b.locks
            else
              && TakenOver(b, c, Sleeping) && SameLocks(b, c)
              && OnlyQueue(b, c, CvQueue(cv), At(b.wait, CvQueue(cv)) + [b.running])
  {
    hide Block;
    var m := Push(Pop(b), CvAcquire(lock));
    assert Step(b, Continue) == ThreadSleep(m, Some(CvQueue(cv)));
    if b.ready == [] {
    } else {
      TakenOverBelow(b, m, CvQueue(cv));
    }
  }

  /** Another thread takes the processor while the caller of cv_wait is not in the queue of the condition variable. */
  ghost predicate Overtaken(b: Sys, cv: nat) {
    exists e :: Enabled(b, e) && Step(b, e).running != b.running && b.running !in At(Step(b, e).wait, CvQueue(cv))
  }

  /**
   Between the release of the lock and the sleep in cv_wait another thread can
   take the processor, and signal to nobody, exactly if the caller had
   interrupts enabled and some thread was ready or waited for the lock.
   */
  lemma OvertakenExactly(s: Sys, cv: nat, lock: nat)
    requires Reachable(s) && Enabled(s, WaitOnCv(cv, lock)) && Owns(s, lock)
    ensures Enabled(Step(s, WaitOnCv(cv, lock)), Continue)
    ensures var b := Step(Step(s, WaitOnCv(cv, lock)), Continue);
            && !b.locks[lock].acquired && b.running == s.running && s.running !in At(b.wait, CvQueue(cv))
            && (Overtaken(b, cv) <==> s.mask && (s.ready != [] || At(s.wait, LockQueue(lock)) != []))
  {
    hide Reachable, Placed, Window, Interrupt, Overtaken;
    CallerRuns(s);
    WindowIsReached(s, cv, lock);
    WindowIs(s, cv, lock);
    var b := Window(s, cv, lock);
    WindowCloses(b, cv, lock);
    InterruptSwitches(b);
    OvertakenInWindow(b, cv);
  }

  lemma OvertakenInWindow(b: Sys, cv: nat)
    requires b.status == Live && b.ctl[b.running] != [] && Enabled(b, Continue) && b.running !in At(b.wait, CvQueue(cv))
    requires var c := Step(b, Continue); c.running == b.running || b.running in At(c.wait, CvQueue(cv))
    requires (Interrupt(b).running != b.running <==> b.ready != []) && Interrupt(b).wait == b.wait
    ensures Overtaken(b, cv) <==> b.mask && b.ready != []
  {
    hide Resume, Interrupt;
    OnlyTwoWays(b);
    if b.mask && b.ready != [] {
      assert Enabled(b, TimerInterrupt) && Step(b, TimerInterrupt).running != b.running;
    } else {
    }
  }

  lemma OnlyTwoWays(b: Sys)
    requires b.status == Live && b.ctl[b.running] != []
    ensures forall e :: Enabled(b, e) ==> e == Continue || (e == TimerInterrupt && b.mask)
  {
  }

  /**
   With interrupts disabled by the caller nothing comes between: the caller is
   in the queue before anybody else runs, or, with no other thread ready,
   cv_wait goes on to take the lock again without any signal.
   */
  lemma MaskedWaitIsAtomic(s: Sys, cv: nat, lock: nat)
    requires Reachable(s) && Enabled(s, WaitOnCv(cv, lock)) && Owns(s, lock) && !s.mask
    ensures var a := Step(s, WaitOnCv(cv, lock));
            && Enabled(a, Continue) && (forall e :: Enabled(a, e) ==> e == Continue)
            && var b := Step(a, Continue);
               && Enabled(b, Continue) && (forall e :: Enabled(b, e) ==> e == Continue)
               && var c := Step(b, Continue);
                  if s.ready == [] && At(s.wait, LockQueue(lock)) == [] then
                    c.running == s.running && c.wait == b.wait && c.ctl[s.running] == [CvAcquire(lock)]
                  else
                    && c.state[s.running] == Sleeping && c.running != s.running
                    && At(c.wait, CvQueue(cv)) == At(s.wait, CvQueue(cv)) + [s.running]
  {
    hide Reachable, Placed, Window;
    CallerRuns(s);
    WindowIsReached(s, cv, lock);
    WindowIs(s, cv, lock);
    var a, b := CvWait(s, cv, lock), Window(s, cv, lock);
    OnlyContinues(a);
    OnlyContinues(b);
    WindowCloses(b, cv, lock);
  }

  // ---------- A signal that is lost ----------

  lemma Go(s: Sys, es: seq<Event>, e: Event) returns (es': seq<Event>, r: Sys)
    requires Possible(s, es) && Enabled(Run(s, es), e)
    ensures es' == es + [e] && Possible(s, es') && r == Run(s, es') == Step(Run(s, es), e)
  {
    RunMore(s, es, e);
    es' := es + [e];
    r := Run(s, es');
  }

  /** Thread 0 holds lock 0 and runs, thread 1 is new. */
  predicate Prepared(s: Sys) {
    && s.status == Live && s.running == 0 && s.mask && s.ready == [1] && s.wait == map[]
    && s.locks == map[0 := Lock(true, 0)] && s.ctl[0] == [] && s.ctl[1] == [Stub]
    && s.state[0] == Running && s.state[1] == Ready
  }

  lemma Prepare() returns (es: seq<Event>)
    ensures Possible(Init(true), es) && Prepared(Run(Init(true), es))
  {
    var s := Init(true);
    assert Possible(s, []) && Run(s, []) == s;
    var r;
    es, r := Go(s, [], CreateLock(0));
    assert Cleanup(r) == r && FirstFree(r.state, 0) == 1;
    es, r := Go(s, es, Create(Some(1)));
    es, r := Go(s, es, Acquire(0));
  }

  /** Thread 0 is in the window of its cv_wait, and thread 1 runs in user code. */
  predicate Preempted(s: Sys) {
    && s.status == Live && s.running == 1 && s.mask && s.ready == [0] && At(s.wait, CvQueue(0)) == []
    && At(s.wait, LockQueue(0)) == [] && 0 in s.locks && !s.locks[0].acquired && s.ctl[1] == []
    && |s.ctl[0]| == 3 && s.ctl[0][0] == CvSleep(0, 0) && s.ctl[0][1].HandlerResume? && s.ctl[0][2].YieldResume?
    && !s.ctl[0][2].prev && s.state[0] == Ready && s.state[1] == Running
  }

  /** Thread 0 is in the window of its cv_wait and still runs. */
  predicate InWindow(s: Sys) {
    && s.status == Live && s.running == 0 && s.mask && s.ready == [1] && At(s.wait, CvQueue(0)) == []
    && At(s.wait, LockQueue(0)) == [] && 0 in s.locks && !s.locks[0].acquired && s.ctl[1] == [Stub]
    && s.ctl[0] == [CvSleep(0, 0)] && s.state[0] == Running && s.state[1] == Ready
  }

  lemma EnterWindow(s: Sys) returns (es: seq<Event>)
    requires Prepared(s)
    ensures Possible(s, es) && InWindow(Run(s, es))
  {
    assert Possible(s, []) && Run(s, []) == s;
    var r;
    es, r := Go(s, [], WaitOnCv(0, 0));
    assert r.ctl[0] == [CvRelease(0, 0)];
    es, r := Go(s, es, Continue);
  }

  /** Thread 1 has just been dispatched for the first time. */
  lemma PreemptStep(s: Sys)
    requires InWindow(s)
    ensures var r := Interrupt(s);
            && r.status == Live && r.running == 1 && !r.mask && r.ready == [0] && r.wait == s.wait && r.locks == s.locks
            && r.ctl[1] == [Stub] && r.state[0] == Ready && r.state[1] == Running
            && |r.ctl[0]| == 3 && r.ctl[0][0] == CvSleep(0, 0) && r.ctl[0][1].HandlerResume?
            && r.ctl[0][2].YieldResume? && !r.ctl[0][2].prev
  {
    InterruptSwitchesTo(s);
    var inside := Push(s, HandlerResume(s.ret[0])).(mask := false);
    YieldToFirst(inside);
  }

  lemma Preempt(s: Sys) returns (es: seq<Event>)
    requires InWindow(s)
    ensures Possible(s, es) && Preempted(Run(s, es))
  {
    assert Possible(s, []) && Run(s, []) == s;
    PreemptStep(s);
    hide Interrupt, InWindow;
    WindowHasMask(s);
    var r;
    es, r := Go(s, [], TimerInterrupt);
    es, r := Go(s, es, Continue);
  }

  lemma WindowHasMask(s: Sys)
    requires InWindow(s)
    ensures Enabled(s, TimerInterrupt)
  {
  }

  /** Thread 1 is about to signal, with thread 0 in the window and nobody in the queue. */
  predicate Signalling(s: Sys) {
    && s.status == Live && s.running == 1 && s.mask && s.ready == [0] && At(s.wait, CvQueue(0)) == []
    && At(s.wait, LockQueue(0)) == [] && 0 in s.locks && s.locks[0] == Lock(true, 1) && s.ctl[1] == [CvWakeup(0, 0)]
    && |s.ctl[0]| == 3 && s.ctl[0][0] == CvSleep(0, 0) && s.ctl[0][1].HandlerResume? && s.ctl[0][2].YieldResume?
    && !s.ctl[0][2].prev && s.state[0] == Ready && s.state[1] == Running
  }

  lemma Signal(s: Sys) returns (es: seq<Event>)
    requires Preempted(s)
    ensures Possible(s, es) && Signalling(Run(s, es))
  {
    assert Possible(s, []) && Run(s, []) == s;
    var r;
    es, r := Go(s, [], Acquire(0));
    es, r := Go(s, es, SignalCv(0, 0));
  }

  /** Thread 0 has run on into its sleep. */
  predicate SleptThrough(s: Sys) {
    s.status == Live && s.state[0] == Sleeping && At(s.wait, CvQueue(0)) == [0]
  }

  /** Thread 1 has signalled and yielded, and thread 0 is back in the window. */
  predicate BackInWindow(s: Sys) {
    && s.status == Live && s.running == 0 && !s.mask && s.ready == [1] && At(s.wait, CvQueue(0)) == []
    && |s.ctl[0]| == 3 && s.ctl[0][0] == CvSleep(0, 0) && s.ctl[0][1].HandlerResume? && s.ctl[0][2].YieldResume?
    && !s.ctl[0][2].prev && s.state[0] == Running && s.state[1] == Ready
  }

  lemma Signalled(s: Sys) returns (es: seq<Event>)
    requires Signalling(s)
    ensures Possible(s, es) && BackInWindow(Run(s, es))
    ensures es != [] && es[0] == Continue
    ensures Step(s, Continue).wait == s.wait && Step(s, Continue).ctl[1] == []
  {
    assert Possible(s, []) && Run(s, []) == s;
    var r;
    es, r := Go(s, [], Continue);
    assert r.ctl[1] == [] && r.ready == [0] && At(r.wait, CvQueue(0)) == [];
    es, r := Go(s, es, Release(0));
    assert r.ready == [0] && r.mask;
    es, r := Go(s, es, Yield(THREAD_ANY));
  }

  lemma SleepOn(s: Sys) returns (es: seq<Event>)
    requires BackInWindow(s)
    ensures Possible(s, es) && SleptThrough(Run(s, es))
  {
    assert Possible(s, []) && Run(s, []) == s;
    var r;
    es, r := Go(s, [], Continue);
    assert r.ctl[0] == s.ctl[0][..2];
    es, r := Go(s, es, Continue);
    assert r.ctl[0] == [CvSleep(0, 0)] && r.ready == [1];
    es, r := Go(s, es, Continue);
  }

  /**
   A signal is lost: on this run thread 1 takes the lock that thread 0 has
   released in cv_wait and calls cv_signal. The next step is its wakeup, which
   wakes nobody and ends the call; only then does thread 0, which was in
   cv_wait all along, go to sleep on the condition variable.
   */
  lemma SignalCanBeLost() returns (es: seq<Event>, more: seq<Event>)
    ensures Possible(Init(true), es)
    ensures var s := Run(Init(true), es);
            && s.status == Live && s.running == 1 && s.ctl[1] == [CvWakeup(0, 0)] && WakeCount(s, CvQueue(0), 0) == 0
            && s.ctl[0] != [] && s.ctl[0][0] == CvSleep(0, 0)
            && Enabled(s, Continue) && Step(s, Continue).wait == s.wait && Step(s, Continue).ctl[1] == []
            && more != [] && more[0] == Continue
            && Possible(s, more) && SleptThrough(Run(s, more))
  {
    var e0 := Prepare();
    var e1 := EnterWindow(Run(Init(true), e0));
    RunJoin(Init(true), e0, e1);
    var e2 := Preempt(Run(Init(true), e0 + e1));
    RunJoin(Init(true), e0 + e1, e2);
    var e3 := Signal(Run(Init(true), e0 + e1 + e2));
    RunJoin(Init(true), e0 + e1 + e2, e3);
    es := e0 + e1 + e2 + e3;
    var s := Run(Init(true), es);
    var e4 := Signalled(s);
    var e5 := SleepOn(Run(s, e4));
    RunJoin(s, e4, e5);
    more := e4 + e5;
  }

  lemma {:induction false} RunJoin(s: Sys, es: seq<Event>, more: seq<Event>)
    requires Possible(s, es) && Possible(Run(s, es), more)
    ensures Possible(s, es + more) && Run(s, es + more) == Run(Run(s, es), more)
    decreases |es|
  {
    hide Enabled, Step;
    if es == [] {
      assert es + more == more;
    } else {
      RunJoin(Step(s, es[0]), es[1..], more);
      assert (es + more)[1..] == es[1..] + more;
    }
  }
}
