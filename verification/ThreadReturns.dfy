/** How calls of the thread library come back, over whole runs: with which result, with which mask, and after what. */
module ThreadReturns {
  import opened Sequences
  import opened ThreadSystem
  import opened ThreadPlaces
  import opened ThreadInvariants
  import opened ThreadSteps
  import opened ThreadProgress
  import opened ThreadTheorems
  import opened ThreadFates
  import opened ThreadCalls

  // ---------- A suspended thread ----------

  /** `t` does not run before the end of the run. */
  ghost predicate Away(s: Sys, es: seq<Event>, t: Tid)
    requires Possible(s, es)
    decreases |es|
  {
    es == [] || (s.running != t && Away(Step(s, es[0]), es[1..], t))
  }

  /** `t` waits for a dispatch inside the given calls. */
  predicate Parked(s: Sys, t: Tid, stack: seq<Frame>) {
    s.running != t && s.state[t] in {Ready, Sleeping, Killed} && s.ctl[t] == stack
  }

  /** `t` has just been dispatched, into its calls or, if it was killed, into thread_exit. */
  predicate Redispatched(s: Sys, t: Tid, stack: seq<Frame>) {
    s.running == t && s.state[t] == Running && !s.mask && (s.ctl[t] == stack || s.ctl[t] == [ExitEntry])
  }

  lemma LiveRunner(s: Sys)
    requires Inv(s)
    ensures s.state[s.running] in {Running, Exited}
  {
  }

  lemma MovedParked(s: Sys, r: Sys, t: Tid, stack: seq<Frame>)
    requires Parked(s, t, stack) && Moved(s, r, t) && r.state[r.running] in {Running, Exited}
    ensures r.gen[t] == s.gen[t] && (Parked(r, t, stack) || Redispatched(r, t, stack))
  {
    if Carried(s, r, t) {
    } else {
    }
  }

  lemma StepParked(s: Sys, e: Event, t: Tid, stack: seq<Frame>)
    requires Inv(s) && Enabled(s, e) && Step(s, e).status == Live && Parked(s, t, stack)
    ensures Inv(Step(s, e)) && Step(s, e).gen[t] == s.gen[t]
    ensures Parked(Step(s, e), t, stack) || Redispatched(Step(s, e), t, stack)
  {
    hide Inv, Enabled, Step, Moved;
    StepKeeps(s, e);
    StepMoves(s, e, t);
    LiveRunner(Step(s, e));
    MovedParked(s, Step(s, e), t, stack);
  }

  lemma LiveSoFar(s: Sys, es: seq<Event>)
    requires Possible(s, es) && es != [] && Run(s, es).status == Live
    ensures Step(s, es[0]).status == Live
  {
  }

  /** Until a suspended thread runs again its calls stay; then it goes on in them, or exits if it was killed. */
  lemma {:induction false} RunParked(s: Sys, es: seq<Event>, t: Tid, stack: seq<Frame>)
    requires Inv(s) && Possible(s, es) && Parked(s, t, stack) && Away(s, es, t) && Run(s, es).status == Live
    ensures var r := Run(s, es);
            r.gen[t] == s.gen[t] && if r.running == t then Redispatched(r, t, stack) else Parked(r, t, stack)
    decreases |es|
  {
    if es == [] {
    } else {
      var m := Step(s, es[0]);
      LiveSoFar(s, es);
      StepParked(s, es[0], t, stack);
      if m.running != t {
        RunParked(m, es[1..], t, stack);
      } else {
        assert es[1..] == [];
      }
    }
  }

  // ---------- thread_yield ----------

  /** With interrupts off a thread inside the library can only go on. */
  lemma OnlyContinues(s: Sys)
    requires s.status == Live && s.ctl[s.running] != [] && !s.mask
    ensures forall e :: Enabled(s, e) ==> e == Continue
  {
  }

  lemma YieldParks(s: Sys, want: int)
    requires Reachable(s) && Enabled(s, Yield(want))
    requires var k := Step(s, Yield(want)); k.status == Live && k.running != s.running
    ensures var k := Step(s, Yield(want)); Inv(k) && Parked(k, s.running, [YieldResume(s.mask, k.running)])
  {
    hide Reachable, Inv, Step, Misuse, Tidy, Placed, Slots, RemoveFirst;
    ReachableInv(s);
    StepKeeps(s, Yield(want));
    CallerRuns(s);
    YieldSuspends(s, want);
  }

  lemma YieldSuspends(s: Sys, want: int)
    requires Reachable(s) && Enabled(s, Yield(want))
    requires var k := Step(s, Yield(want)); k.status == Live && k.running != s.running
    ensures var k := Step(s, Yield(want));
            && k.ctl[s.running] == [YieldResume(s.mask, k.running)] && k.state[s.running] == Ready
  {
    hide Reachable, Enabled, Step, RemoveFirst;
    if want == THREAD_ANY {
      YieldAnyDoes(s);
    } else if want == THREAD_SELF || want == s.running {
      SelfYieldStays(s, want);
    } else {
      DirectedYieldDoes(s, want);
    }
  }

  lemma SelfYieldStays(s: Sys, want: int)
    requires Enabled(s, Yield(want)) && (want == THREAD_SELF || want == s.running)
    ensures Step(s, Yield(want)).running == s.running
  {
    hide ThreadYield;
    SelfYields(s, want);
  }

  lemma SelfYields(s: Sys, want: int)
    requires want == THREAD_SELF || want == s.running
    ensures ThreadYield(s, want).running == s.running
  {
    if s.running in Requeued(s) {
    } else {
    }
  }

  /**
   A thread that yields the processor and is not killed comes back with the
   id of the thread that ran, and with its mask, however long that takes.
   */
  lemma YieldReturns(s: Sys, want: int, es: seq<Event>)
    requires Reachable(s) && Enabled(s, Yield(want))
    requires var k := Step(s, Yield(want));
             k.status == Live && k.running != s.running && Possible(k, es) && Away(k, es, s.running)
    requires var r := Run(Step(s, Yield(want)), es); r.status == Live && r.running == s.running
    ensures var r := Run(Step(s, Yield(want)), es);
            || r.ctl[s.running] == [ExitEntry]
            || (&& Enabled(r, Continue) && (forall e :: Enabled(r, e) ==> e == Continue)
                && var u := Step(r, Continue);
                   && u.running == s.running && u.ctl[s.running] == []
                   && u.ret[s.running] == Step(s, Yield(want)).running && u.mask == s.mask)
  {
    hide Reachable, Inv;
    var k := Step(s, Yield(want));
    var stack := [YieldResume(s.mask, k.running)];
    YieldParks(s, want);
    RunParked(k, es, s.running, stack);
    var r := Run(k, es);
    if r.ctl[s.running] == stack {
      OnlyContinues(r);
      assert stack[..0] == [];
    }
  }

  lemma SelfSwitch(s: Sys, want: int)
    requires s.status == Live && s.ctl[s.running] == [] && s.state[s.running] == Running && s.running !in s.ready
    requires want == THREAD_SELF || want == s.running
    ensures var k := ThreadYield(s, want);
            && k.status == Live && !k.mask && k.ctl[k.running] == [YieldResume(s.mask, s.running)]
            && CanResume(k) && Resume(k) == Return(s, s.running)
  {
    var me := s.running;
    RemoveOnlyLast(s.ready, me);
    var k := ThreadYield(s, want);
    assert k == Switch(s, me, s.mask);
    assert s.state[me := Ready][me := Running] == s.state;
    assert Pop(k).ctl == s.ctl;
    assert Pop(k).(mask := s.mask) == s;
  }

  lemma {:induction false} RemoveOnlyLast(s: seq<Tid>, t: Tid)
    requires t !in s
    ensures t in s + [t] && RemoveFirst<Tid>(s + [t], t) == s
  {
    if s != [] {
      RemoveOnlyLast(s[1..], t);
      assert (s + [t])[1..] == s[1..] + [t];
    }
  }

  /** A thread that yields to itself goes on with its own id, and nothing has changed. */
  lemma SelfYieldReturns(s: Sys, want: int)
    requires Reachable(s) && Enabled(s, Yield(want)) && (want == THREAD_SELF || want == s.running)
    ensures var k := Step(s, Yield(want));
            && Enabled(k, Continue) && (forall e :: Enabled(k, e) ==> e == Continue)
            && Step(k, Continue) == Return(s, s.running)
  {
    hide Reachable, Placed, Slots, ThreadYield;
    CallerRuns(s);
    SelfSwitch(s, want);
    OnlyContinues(ThreadYield(s, want));
  }

  // ---------- thread_create ----------

  /** A new thread that is not killed starts in user code, with interrupts enabled, when it is first dispatched. */
  lemma NewThreadStarts(s: Sys, memory: Option<Addr>, es: seq<Event>)
    requires Reachable(s) && Enabled(s, Create(memory)) && Step(s, Create(memory)).ret[s.running] >= 0
    requires IsTid(Step(s, Create(memory)).ret[s.running]) && Possible(Step(s, Create(memory)), es)
    requires Away(Step(s, Create(memory)), es, Step(s, Create(memory)).ret[s.running])
    ensures var t := Step(s, Create(memory)).ret[s.running];
            var r := Run(Step(s, Create(memory)), es);
            r.status == Live && r.running == t ==>
              || r.ctl[t] == [ExitEntry]
              || (&& Enabled(r, Continue) && (forall e :: Enabled(r, e) ==> e == Continue)
                  && var u := Step(r, Continue); u.running == t && u.ctl[t] == [] && u.mask)
  {
    hide Reachable, Inv, Enabled, Step;
    var k := Step(s, Create(memory));
    var t: Tid := k.ret[s.running];
    ReachableInv(s);
    StepKeeps(s, Create(memory));
    CreateDoes(s, memory);
    CreateLives(s, memory);
    var r := Run(k, es);
    if r.status == Live {
      RunParked(k, es, t, [Stub]);
      if r.running == t && r.ctl[t] == [Stub] {
        StubStarts(r);
      }
    }
  }

  lemma CreateLives(s: Sys, memory: Option<Addr>)
    requires Enabled(s, Create(memory))
    ensures Step(s, Create(memory)).status == Live
  {
    hide Cleanup;
    CleanupRest(s);
    FirstFreeBound(Cleanup(s).state, 0);
  }

  lemma StubStarts(r: Sys)
    requires r.status == Live && !r.mask && r.ctl[r.running] == [Stub]
    ensures Enabled(r, Continue) && (forall e :: Enabled(r, e) ==> e == Continue)
    ensures var u := Step(r, Continue); u.running == r.running && u.ctl[r.running] == [] && u.mask
  {
    OnlyContinues(r);
    assert [Stub][..0] == [];
  }

  // ---------- interrupts_set ----------

  /** Whenever the caller is back in user code, until its next call, interrupts are as it has set them. */
  lemma MaskIsAsSet(s: Sys, on: bool, es: seq<Event>)
    requires Reachable(s) && Enabled(s, SetMask(on))
    requires Possible(Step(s, SetMask(on)), es) && LeavesMask(Step(s, SetMask(on)), es, s.running)
    requires var r := Run(Step(s, SetMask(on)), es);
             && r.status == Live && r.running == s.running && r.ctl[s.running] == []
             && r.gen[s.running] == s.gen[s.running]
    ensures Run(Step(s, SetMask(on)), es).mask == on
  {
    ReachableStep(s, SetMask(on));
    MaskIsGivenBack(Step(s, SetMask(on)), es, s.running);
  }

  // ---------- thread_sleep ----------

  /**
   A thread that sleeps and is not killed comes back with the id of the
   thread that ran when it went to sleep, and with its mask.
   */
  lemma SleepReturns(s: Sys, q: WaitQueue, es: seq<Event>)
    requires Reachable(s) && Enabled(s, Sleep(Some(q))) && s.ready != []
    requires var k := Step(s, Sleep(Some(q))); k.status == Live && Possible(k, es) && Away(k, es, s.running)
    requires var r := Run(Step(s, Sleep(Some(q))), es); r.status == Live && r.running == s.running
    ensures var r := Run(Step(s, Sleep(Some(q))), es);
            || r.ctl[s.running] == [ExitEntry]
            || (&& Enabled(r, Continue) && (forall e :: Enabled(r, e) ==> e == Continue)
                && var u := Step(r, Continue);
                   && Enabled(u, Continue) && (forall e :: Enabled(u, e) ==> e == Continue)
                   && var v := Step(u, Continue);
                      && v.running == s.running && v.ctl[s.running] == []
                      && v.ret[s.running] == s.ready[0] && v.mask == s.mask)
  {
    hide Reachable, Inv;
    var k := Step(s, Sleep(Some(q)));
    var stack := [SleepResume(s.mask), YieldResume(false, s.ready[0])];
    SleepParks(s, q);
    RunParked(k, es, s.running, stack);
    var r := Run(k, es);
    if r.ctl[s.running] == stack {
      SleepUnwinds(r, s.mask, s.ready[0]);
    }
  }

  /** The last part of thread_yield and then of thread_sleep. */
  lemma SleepUnwinds(s: Sys, prev: bool, value: int)
    requires s.status == Live && !s.mask && s.ctl[s.running] == [SleepResume(prev), YieldResume(false, value)]
    ensures Enabled(s, Continue) && (forall e :: Enabled(s, e) ==> e == Continue)
    ensures var u := Step(s, Continue);
            && Enabled(u, Continue) && (forall e :: Enabled(u, e) ==> e == Continue)
            && var v := Step(u, Continue);
               v.running == s.running && v.ctl[s.running] == [] && v.ret[s.running] == value && v.mask == prev
  {
    OnlyContinues(s);
    assert s.ctl[s.running][..1] == [SleepResume(prev)];
    var u := Step(s, Continue);
    assert u == Return(Pop(s), value);
    OnlyContinues(u);
    assert [SleepResume(prev)][..0] == [];
  }

  lemma SleepParks(s: Sys, q: WaitQueue)
    requires Reachable(s) && Enabled(s, Sleep(Some(q))) && s.ready != []
    ensures var k := Step(s, Sleep(Some(q)));
            k.status == Live && Inv(k) && Parked(k, s.running, [SleepResume(s.mask), YieldResume(false, s.ready[0])])
  {
    hide Reachable, Inv;
    ReachableInv(s);
    StepKeeps(s, Sleep(Some(q)));
    SleepDoes(s, Some(q));
    CallerRuns(s);
    assert s.ready[0] in s.ready;
    assert Requeued(Asleep(s, q)) == s.ready;
    assert s.ctl[s.running] + [SleepResume(s.mask)] + [YieldResume(false, s.ready[0])] ==
      [SleepResume(s.mask), YieldResume(false, s.ready[0])];
  }

  // ---------- lock_release ----------

  lemma {:induction false} RunMore(s: Sys, es: seq<Event>, e: Event)
    requires Possible(s, es) && Enabled(Run(s, es), e)
    ensures Possible(s, es + [e]) && Run(s, es + [e]) == Step(Run(s, es), e)
    decreases |es|
  {
    if es == [] {
      assert es + [e] == [e] && [e][1..] == [];
    } else {
      RunMore(Step(s, es[0]), es[1..], e);
      assert (es + [e])[1..] == es[1..] + [e];
    }
  }

  lemma ReachableStep(s: Sys, e: Event)
    requires Reachable(s) && Enabled(s, e) && Step(s, e).status == Live
    ensures Reachable(Step(s, e))
  {
    var on, es :| Possible(Init(on), es) && Run(Init(on), es) == s;
    RunMore(Init(on), es, e);
  }

  /**
   Whoever waits for a lock when it is released is dispatched, to try and take
   it, before the head of the ready queue has been picked more often than
   there are threads before it.
   */
  lemma ReleasedWaitersRun(s: Sys, lock: nat, i: nat, es: seq<Event>)
    requires Reachable(s) && Enabled(s, Release(lock)) && Owns(s, lock) && i < |At(s.wait, LockQueue(lock))|
    requires Possible(Step(s, Release(lock)), es)
    requires Run(Step(s, Release(lock)), es).picks > s.picks + |s.ready| + i
    ensures !NeverRuns(Step(s, Release(lock)), es, At(s.wait, LockQueue(lock))[i])
  {
    hide Reachable, Possible, Run, NeverRuns, Wake;
    var k := Step(s, Release(lock));
    ReleaseDoes(s, lock);
    ReachableStep(s, Release(lock));
    ReleasePicks(s, lock);
    assert ReadyAt(k, At(s.wait, LockQueue(lock))[i], |s.ready| + i);
    BoundedWaiting(k, es, At(s.wait, LockQueue(lock))[i], |s.ready| + i);
  }

  lemma ReleasePicks(s: Sys, lock: nat)
    requires lock in s.locks
    ensures LockRelease(s, lock).picks == s.picks
  {
  }
}
