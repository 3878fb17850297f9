/** lock_acquire, cv_wait, cv_signal and cv_broadcast from the call to the return, over whole runs. */
module ThreadBlocking {
  import opened Sequences
  import opened ThreadSystem
  import opened ThreadPlaces
  import opened ThreadInvariants
  import opened ThreadSteps
  import opened ThreadProgress
  import opened ThreadTheorems
  import opened ThreadFates
  import opened ThreadCalls
  import opened ThreadReturns
  import opened ThreadWaits

  // ---------- From the call to the return ----------

  /** `t` runs in user code. */
  predicate Back(s: Sys, t: Tid) {
    s.status == Live && s.running == t && s.ctl[t] == []
  }

  /** In no state of the run is `t` in user code. */
  ghost predicate NeverBack(s: Sys, es: seq<Event>, t: Tid)
    requires Possible(s, es)
    decreases |es|
  {
    !Back(s, t) && (es == [] || NeverBack(Step(s, es[0]), es[1..], t))
  }

  /** At the end of the run, and not before, `t` is in user code. */
  ghost predicate FirstBack(s: Sys, es: seq<Event>, t: Tid)
    requires Possible(s, es)
    decreases |es|
  {
    if es == [] then Back(s, t) else !Back(s, t) && FirstBack(Step(s, es[0]), es[1..], t)
  }

  // ---------- Where a blocked thread is ----------

  /** The calls whose inner frames are followed here. */
  datatype Call =
    | Acquiring(lock: nat)
    | InCvWait(cv: nat, lock: nat)
    | BeforeSleep(cv: nat, lock: nat)   // in cv_wait, as long as it has not slept
    | Waking(cv: nat, all: int)

  /** The frames that a call can leave at the bottom of the stack. */
  predicate Base(call: Call, f: Frame) {
    match call
    case Acquiring(lock) => f.AcquireLoop? && f.lock == lock
    case InCvWait(cv, lock) =>
      f == CvRelease(cv, lock) || f == CvSleep(cv, lock) || f == CvAcquire(lock) || (f.AcquireLoop? && f.lock == lock)
    case BeforeSleep(cv, lock) => f == CvRelease(cv, lock) || f == CvSleep(cv, lock)
    case Waking(cv, all) => f == CvWakeup(cv, all)
  }

  /** The queue in which a call sleeps that has left `f` at the bottom of the stack. */
  predicate SleepsIn(call: Call, f: Frame, q: WaitQueue) {
    match call
    case Acquiring(lock) => q == LockQueue(lock)
    case InCvWait(cv, lock) => (f.CvAcquire? && q == CvQueue(cv)) || (f.AcquireLoop? && q == LockQueue(lock))
    case _ => false
  }

  /** The call's frame, and above it at most what an interrupt or thread_sleep leaves. */
  predicate Inside(call: Call, stack: seq<Frame>) {
    && stack != [] && Base(call, stack[0])
    && forall i :: 0 < i < |stack| ==> CallsNothing(stack[i])
  }

  ghost predicate QueuedRight(s: Sys, t: Tid, call: Call)
    requires s.ctl[t] != []
  {
    forall q :: t in At(s.wait, q) ==> SleepsIn(call, s.ctl[t][0], q)
  }

  /** The thread that was number `g` in slot `t` is inside the call, or was killed in it. */
  ghost predicate Stage(s: Sys, t: Tid, g: nat, call: Call) {
    || Doomed(s, t, g)
    || (&& s.gen[t] == g && s.state[t] in {Running, Ready, Sleeping}
        && Inside(call, s.ctl[t]) && QueuedRight(s, t, call))
  }

  // ---------- Nobody else puts a thread into a queue ----------

  ghost predicate NoNewcomers(s: Sys, wait: Queues) {
    forall q, x: Tid :: x in At(wait, q) && x != s.running ==> x in At(s.wait, q)
  }

  lemma AsleepQueues(s: Sys, m: Sys, q: WaitQueue)
    requires m.running == s.running && m.wait == s.wait
    ensures NoNewcomers(s, Asleep(m, q).wait)
  {
  }

  lemma QueueingQueues(s: Sys, m: Sys, lock: nat, prev: bool)
    requires m.running == s.running && m.wait == s.wait
    ensures NoNewcomers(s, Queueing(m, lock, prev).wait)
  {
    AsleepQueues(s, Push(m, AcquireLoop(lock, prev)), LockQueue(lock));
  }

  lemma ResumeUntilYieldQueues(s: Sys)
    requires CanResume(s) && ResumeUntilYield(s).Some?
    ensures NoNewcomers(s, ResumeUntilYield(s).value.wait)
  {
    hide NoNewcomers, Asleep, Queueing;
    match Top(s) {
      case AcquireLoop(lock, prev) => QueueingQueues(s, Pop(s), lock, prev);
      case CvAcquire(lock) => QueueingQueues(s, Pop(s).(mask := false), lock, s.mask);
      case CvSleep(cv, lock) => AsleepQueues(s, Push(Pop(s), CvAcquire(lock)), CvQueue(cv));
      case ExitYield => SameQueues(s);
    }
  }

  lemma SameQueues(s: Sys)
    ensures NoNewcomers(s, s.wait)
  {
  }

  lemma UntilYieldQueues(s: Sys, e: Event)
    requires Enabled(s, e) && UntilYield(s, e).Some?
    ensures NoNewcomers(s, UntilYield(s, e).value.wait)
  {
    match e {
      case Yield(_) =>
      case Sleep(queue) => AsleepQueues(s, s, queue.value);
      case Wait(t) => AsleepQueues(s, Push(s, WaitResume(s.mask, t)).(mask := false), ThreadQueue(t));
      case Acquire(lock) => QueueingQueues(s, s.(mask := false), lock, s.mask);
      case TimerInterrupt =>
      case Continue => ResumeUntilYieldQueues(s);
    }
  }

  lemma WakeShrinks(s: Sys, m: Sys, q: WaitQueue, all: int)
    requires m.wait == s.wait
    ensures NoNewcomers(s, Wake(m, q, all).wait)
  {
    if WakeCount(m, q, all) == 0 {
    } else {
    }
  }

  lemma ReleaseShrinks(s: Sys, m: Sys, lock: nat)
    requires lock in m.locks && m.wait == s.wait
    ensures NoNewcomers(s, LockRelease(m, lock).wait)
  {
    if Owns(m, lock) {
      WakeShrinks(s, Unlocked(m, lock), LockQueue(lock), 1);
    } else {
    }
  }

  lemma ExitShrinks(s: Sys, m: Sys)
    requires m.wait == s.wait
    ensures NoNewcomers(s, ThreadExit(m).wait)
  {
    hide Cleanup;
    CleanupRest(m);
    WakeShrinks(s, Dying(m), ThreadQueue(m.running), 1);
    if Wake(Dying(m), ThreadQueue(m.running), 1).ready == [] {
    } else {
    }
  }

  lemma ReleaseInWaitQueues(s: Sys)
    requires CanResume(s) && Top(s).CvRelease?
    ensures NoNewcomers(s, Resume(s).wait)
  {
    ReleaseShrinks(s, Pop(s), Top(s).lock);
    if Owns(s, Top(s).lock) {
    } else {
    }
  }

  lemma ResumeQueues(s: Sys)
    requires CanResume(s) && ResumeUntilYield(s).None?
    ensures NoNewcomers(s, Resume(s).wait)
  {
    hide Resume;
    if Top(s).AcquireLoop? || Top(s).CvAcquire? {
      TakenStay(s);
    } else if Top(s).CvRelease? {
      ReleaseInWaitQueues(s);
    } else if Top(s).CvSleep? {
      RefusedSleepStay(s);
    } else if Top(s).CvWakeup? {
      WakeupQueues(s);
    } else if Top(s).ExitEntry? {
      EntryQueues(s);
    } else {
      ReturningStay(s);
    }
  }

  lemma WakeupQueues(s: Sys)
    requires CanResume(s) && Top(s).CvWakeup?
    ensures NoNewcomers(s, Resume(s).wait)
  {
    WakeShrinks(s, Pop(s), CvQueue(Top(s).cv), Top(s).all);
  }

  lemma EntryQueues(s: Sys)
    requires CanResume(s) && Top(s).ExitEntry?
    ensures NoNewcomers(s, Resume(s).wait)
  {
    ExitShrinks(s, Pop(s));
  }

  lemma CallQueues(s: Sys, e: Event)
    requires Enabled(s, e) && UntilYield(s, e).None? && !e.Yield? && !e.Continue? && !e.TimerInterrupt?
    ensures NoNewcomers(s, Step(s, e).wait)
  {
    hide ThreadCreate, ThreadKill, ThreadYield, ThreadSleep, ThreadWait, Resume, Interrupt, Wake;
    match e {
      case SetMask(_) =>
      case Create(memory) => CreateStay(s, memory);
      case Kill(victim) => KillStay(s, victim);
      case Exit => ExitShrinks(s, s);
      case Sleep(_) => RefusedStay(s, e);
      case Wait(_) => RefusedStay(s, e);
      case Wakeup(queue, all) =>
        if queue.Some? {
          WakeShrinks(s, s, queue.value, all);
        } else {
        }
      case CreateLock(_) =>
      case DestroyLock(_) =>
      case Acquire(lock) => TurnStay(s.(mask := false), lock, s.mask);
      case Release(lock) => ReleaseShrinks(s, s, lock);
      case WaitOnCv(_, _) =>
      case SignalCv(_, _) =>
      case BroadcastCv(_, _) =>
      case DestroyCv(_) =>
    }
  }

  lemma StepQueues(s: Sys, e: Event)
    requires Enabled(s, e)
    ensures NoNewcomers(s, Step(s, e).wait)
  {
    if UntilYield(s, e).Some? {
      StepEndsInYield(s, e);
      UntilYieldQueues(s, e);
      YieldAnyLeaves(UntilYield(s, e).value);
    } else if e.Yield? {
      YieldLeaves(s, e.want);
    } else if e.Continue? {
      ResumeQueues(s);
    } else {
      CallQueues(s, e);
    }
  }

  // ---------- One step of another thread ----------

  lemma OtherStage(s: Sys, e: Event, t: Tid, g: nat, call: Call)
    requires Inv(s) && Enabled(s, e) && t != s.running && Stage(s, t, g, call)
    ensures Stage(Step(s, e), t, g, call)
  {
    hide Inv, Enabled, Step, Inside;
    if Doomed(s, t, g) {
      StepDoomed(s, e, t, g);
    } else {
      StepMoves(s, e, t);
      StepQueues(s, e);
      StaysInside(s, Step(s, e), t, g, call);
    }
  }

  lemma StaysInside(s: Sys, r: Sys, t: Tid, g: nat, call: Call)
    requires Moved(s, r, t) && NoNewcomers(s, r.wait) && t != s.running && !Doomed(s, t, g) && Stage(s, t, g, call)
    requires s.state[t] == Running ==> r.state[t] in {Running, Killed}
    ensures Stage(r, t, g, call)
  {
    hide Inside;
    if Carried(s, r, t) {
    } else {
    }
  }

  // ---------- One step of the thread itself ----------

  lemma OnlyTimerOrContinue(s: Sys, e: Event)
    requires Enabled(s, e) && s.ctl[s.running] != []
    ensures e == Continue || e == TimerInterrupt
  {
  }

  /** The runner of a stage: it is in no queue, and not killed. */
  lemma StageRunner(s: Sys, t: Tid, g: nat, call: Call)
    requires Inv(s) && s.running == t && Stage(s, t, g, call) && !Doomed(s, t, g)
    ensures s.state[t] == Running && s.gen[t] == g && Inside(call, s.ctl[t])
    ensures t !in s.ready && forall q :: t !in At(s.wait, q)
  {
    var at := PlacesOf(s);
  }

  lemma InterruptedInside(s: Sys, call: Call)
    requires Inside(call, s.ctl[s.running]) && s.state[s.running] == Running && s.running !in s.ready
    ensures var r := Interrupt(s);
            && r.gen == s.gen && r.state[s.running] in {Running, Ready} && Inside(call, r.ctl[s.running])
            && r.wait == s.wait
  {
    var inside := Push(s, HandlerResume(s.ret[s.running])).(mask := false);
    hide Inside;
    InsideMore(call, s.ctl[s.running], [HandlerResume(s.ret[s.running])]);
    if s.ready == [] {
      YieldAlone(inside);
    } else {
      assert s.ready[0] in s.ready;
      YieldToFirst(inside);
      InsideMore(call, inside.ctl[s.running], [YieldResume(false, s.ready[0])]);
    }
  }

  lemma InsideMore(call: Call, stack: seq<Frame>, more: seq<Frame>)
    requires Inside(call, stack) && forall i :: 0 <= i < |more| ==> CallsNothing(more[i])
    ensures Inside(call, stack + more)
  {
  }

  /** What is above the call's frame only returns. */
  lemma AboveReturns(s: Sys, call: Call)
    requires CanResume(s) && Inside(call, s.ctl[s.running]) && |s.ctl[s.running]| > 1
    ensures var r := Resume(s);
            && r.gen == s.gen && r.state == s.state && Inside(call, r.ctl[s.running]) && r.wait == s.wait
  {
    PlainReturns(s);
    hide Resume;
  }

  /** What the caller finds when the call returns by the step from `s` to `r`. */
  ghost predicate Result(call: Call, s: Sys, r: Sys) {
    var t := s.running;
    && r.running == t && r.ctl[t] == [] && r.status == Live && r.gen[t] == s.gen[t]
    && match call
       case BeforeSleep(_, _) => false
       case Acquiring(lock) => lock in r.held[t] && lock in r.locks && r.locks[lock] == Lock(true, t)
       case InCvWait(_, lock) => lock in r.held[t] && lock in r.locks && r.locks[lock] == Lock(true, t)
       case Waking(cv, all) =>
         var w := At(s.wait, CvQueue(cv));
         var k := if all == 1 then |w| else if w == [] then 0 else 1;
         r.ready == s.ready + w[..k] && OnlyQueue(s, r, CvQueue(cv), w[k..]) && OnlyWoken(s, r, w[..k])
  }

  /** After a turn of the loop the thread has the lock, stays in the loop, or sleeps in the lock's queue. */
  lemma TurnInside(s: Sys, m: Sys, call: Call, lock: nat, prev: bool)
    requires lock in m.locks && s.status == Live && m == s.(ctl := m.ctl, mask := false) && m.ctl[s.running] == []
    requires call.Acquiring? || call.InCvWait?
    requires call.lock == lock && s.running !in s.ready && s.state[s.running] == Running
    requires forall q :: s.running !in At(s.wait, q)
    ensures var r := AcquireTurn(m, lock, prev);
            || Result(call, s, r)
            || (&& r.gen == s.gen && r.state[s.running] in {Running, Sleeping}
                && Inside(call, r.ctl[s.running]) && QueuedRight(r, s.running, call))
  {
    if !m.locks[lock].acquired {
    } else if m.ready == [] {
      assert [] + [AcquireLoop(lock, prev)] == [AcquireLoop(lock, prev)];
    } else {
      var loop := Push(m, AcquireLoop(lock, prev));
      BlockedInside(loop, LockQueue(lock), call);
    }
  }

  lemma BlockedInside(m: Sys, q: WaitQueue, call: Call)
    requires m.status == Live && m.ready != [] && m.running !in m.ready && forall p :: m.running !in At(m.wait, p)
    requires Inside(call, m.ctl[m.running]) && SleepsIn(call, m.ctl[m.running][0], q)
    ensures var r := Block(m, q);
            && r.gen == m.gen && r.state[m.running] == Sleeping
            && Inside(call, r.ctl[m.running]) && QueuedRight(r, m.running, call)
  {
    hide Block;
    BlockTakesOver(m, q);
    assert m.ready[0] in m.ready;
    BlockGen(m, q);
    var r := Block(m, q);
    assert r.ctl[m.running][0] == m.ctl[m.running][0];
    forall p | m.running in At(r.wait, p) ensures p == q {
      assert p != q ==> At(r.wait, p) == At(m.wait, p);
    }
  }

  lemma BlockGen(m: Sys, q: WaitQueue)
    requires m.ready != []
    ensures Block(m, q).gen == m.gen
  {
    YieldAnyPicks(Asleep(m, q));
  }

  predicate WellCalled(call: Call) {
    !call.BeforeSleep? && (call.Waking? ==> call.all == 0 || call.all == 1)
  }

  ghost predicate StillInside(s: Sys, r: Sys, call: Call) {
    && r.gen == s.gen && r.state[s.running] in {Running, Ready, Sleeping}
    && Inside(call, r.ctl[s.running]) && QueuedRight(r, s.running, call)
  }

  lemma ReleaseInside(s: Sys, cv: nat, lock: nat)
    requires Placed(s) && s.state[s.running] == Running && s.ctl[s.running] == [CvRelease(cv, lock)]
    requires CanResume(s) && forall q :: s.running !in At(s.wait, q)
    ensures StillInside(s, Resume(s), InCvWait(cv, lock)) && StillInside(s, Resume(s), BeforeSleep(cv, lock))
  {
    hide Arranged;
    var below := Pop(s);
    assert below.ctl[s.running] == [];
    if Owns(s, lock) {
      hide LockRelease;
      ReleaseWakes(below, lock);
      ReleaseGen(below, lock);
      assert [] + [CvSleep(cv, lock)] == [CvSleep(cv, lock)];
    } else {
    }
  }

  lemma ReleaseGen(s: Sys, lock: nat)
    requires lock in s.locks
    ensures LockRelease(s, lock).gen == s.gen
  {
  }

  lemma SleepInside(s: Sys, cv: nat, lock: nat)
    requires s.status == Live && s.state[s.running] == Running && s.ctl[s.running] == [CvSleep(cv, lock)]
    requires s.running !in s.ready && forall q :: s.running !in At(s.wait, q)
    ensures CanResume(s) && StillInside(s, Resume(s), InCvWait(cv, lock))
  {
    hide Block;
    var m := Push(Pop(s), CvAcquire(lock));
    assert Pop(s).ctl[s.running] == [] && m.ctl[s.running] == [CvAcquire(lock)];
    assert Resume(s) == ThreadSleep(m, Some(CvQueue(cv)));
    if s.ready == [] {
    } else {
      BlockedInside(m, CvQueue(cv), InCvWait(cv, lock));
    }
  }

  lemma WakeReturns(s: Sys, cv: nat, all: int)
    requires Placed(s) && s.status == Live && s.ctl[s.running] == [CvWakeup(cv, all)] && (all == 0 || all == 1)
    ensures CanResume(s) && Result(Waking(cv, all), s, Resume(s))
  {
    hide Arranged, Wake, OnlyQueue, OnlyWoken;
    assert Pop(s).ctl[s.running] == [];
    WakeDoes(Pop(s), CvQueue(cv), all);
    WakeGen(Pop(s), CvQueue(cv), all);
    var w, k := At(s.wait, CvQueue(cv)), WakeCount(Pop(s), CvQueue(cv), all);
    SameBelow(s, Pop(s), Resume(s), CvQueue(cv), w[k..], w[..k]);
  }

  lemma SameBelow(s: Sys, m: Sys, r: Sys, q: WaitQueue, w: seq<Tid>, block: seq<Tid>)
    requires m.wait == s.wait && m.state == s.state && OnlyQueue(m, r, q, w) && OnlyWoken(m, r, block)
    ensures OnlyQueue(s, r, q, w) && OnlyWoken(s, r, block)
  {
  }

  lemma WakeGen(s: Sys, q: WaitQueue, all: int)
    ensures Wake(s, q, all).gen == s.gen
  {
  }

  lemma LoopInside(s: Sys, call: Call)
    requires s.status == Live && s.state[s.running] == Running && CanResume(s) && |s.ctl[s.running]| == 1
    requires Top(s).AcquireLoop? || Top(s).CvAcquire?
    requires (call.Acquiring? || call.InCvWait?) && call.lock == Top(s).lock && (Top(s).AcquireLoop? ==> !s.mask)
    requires s.running !in s.ready && forall q :: s.running !in At(s.wait, q)
    ensures StillInside(s, Resume(s), call) || Result(call, s, Resume(s))
  {
    hide AcquireTurn;
    var m := Pop(s).(mask := false);
    assert m.ctl[s.running] == [];
    TurnInside(s, m, call, Top(s).lock, if Top(s).AcquireLoop? then Top(s).prev else s.mask);
  }

  /** The call's own frame goes on: into its next part, or back to the caller. */
  lemma BaseGoesOn(s: Sys, t: Tid, g: nat, call: Call)
    requires Inv(s) && Enabled(s, Continue) && s.running == t && Stage(s, t, g, call) && !Doomed(s, t, g)
    requires |s.ctl[t]| == 1 && WellCalled(call)
    ensures StillInside(s, Resume(s), call) || Result(call, s, Resume(s))
  {
    StageRunner(s, t, g, call);
    assert Placed(s);
    assert s.ctl[t] == [Top(s)];
    if Top(s).AcquireLoop? {
      LoopIsMasked(s);
    }
    hide Inv, Placed, Stage, Doomed, StillInside, Result, Resume;
    if Top(s).CvRelease? {
      ReleaseInside(s, Top(s).cv, Top(s).lock);
    } else if Top(s).CvSleep? {
      SleepInside(s, Top(s).cv, Top(s).lock);
    } else if Top(s).CvWakeup? {
      WakeReturns(s, Top(s).cv, Top(s).all);
    } else {
      LoopInside(s, call);
    }
  }

  lemma OwnStage(s: Sys, e: Event, t: Tid, g: nat, call: Call)
    requires Inv(s) && Enabled(s, e) && s.running == t && Stage(s, t, g, call) && WellCalled(call)
    ensures Stage(Step(s, e), t, g, call) || (e == Continue && Result(call, s, Step(s, e)) && s.gen[t] == g)
  {
    if Doomed(s, t, g) {
      StepDoomed(s, e, t, g);
    } else {
      StageRunner(s, t, g, call);
      OnlyTimerOrContinue(s, e);
      hide Inv, Stage, Doomed, Interrupt, Resume, Result, Inside, StillInside;
      if e.TimerInterrupt? {
        InterruptedInside(s, call);
      } else if |s.ctl[t]| > 1 {
        AboveReturns(s, call);
      } else {
        BaseGoesOn(s, t, g, call);
      }
    }
  }

  // ---------- Whole runs ----------

  lemma StepStage(s: Sys, e: Event, t: Tid, g: nat, call: Call)
    requires Inv(s) && Enabled(s, e) && Stage(s, t, g, call) && WellCalled(call)
    ensures || Stage(Step(s, e), t, g, call)
            || (s.running == t && e == Continue && Result(call, s, Step(s, e)) && s.gen[t] == g)
  {
    if t == s.running {
      OwnStage(s, e, t, g, call);
    } else {
      OtherStage(s, e, t, g, call);
    }
  }

  lemma InsideIsNotBack(s: Sys, t: Tid, g: nat, call: Call)
    requires Inv(s) && Stage(s, t, g, call) && s.gen[t] == g
    ensures !Back(s, t)
  {
    if s.running == t {
      RunnerRuns(s);
    }
  }

  lemma ResultIsBack(s: Sys, r: Sys, call: Call)
    requires Result(call, s, r)
    ensures Back(r, s.running) && r.gen[s.running] == s.gen[s.running]
  {
  }

  /** As long as the caller is not back it is inside the call, wherever the call sleeps. */
  lemma {:induction false} RunStage(s: Sys, es: seq<Event>, t: Tid, g: nat, call: Call)
    requires (s.status == Live ==> Inv(s)) && Possible(s, es) && Stage(s, t, g, call) && WellCalled(call)
    requires NeverBack(s, es, t)
    ensures Stage(Run(s, es), t, g, call)
    decreases |es|
  {
    hide Inv, Step, Stage, Result;
    if es != [] {
      StepStage(s, es[0], t, g, call);
      StepKeeps(s, es[0]);
      if Result(call, s, Step(s, es[0])) && s.running == t {
        ResultIsBack(s, Step(s, es[0]), call);
      }
      RunStage(Step(s, es[0]), es[1..], t, g, call);
    }
  }

  /** The caller gets back to user code by a step that gives the call's result. */
  lemma {:induction false} RunToResult(s: Sys, es: seq<Event>, t: Tid, g: nat, call: Call) returns (m: Sys)
    requires Inv(s) && Possible(s, es) && Stage(s, t, g, call) && WellCalled(call)
    requires FirstBack(s, es, t) && Run(s, es).gen[t] == g
    ensures es != [] && Possible(s, es[..|es| - 1]) && m == Run(s, es[..|es| - 1])
    ensures m.running == t && Result(call, m, Run(s, es))
    decreases |es|
  {
    hide Inv, Enabled, Step, Stage, Result;
    if es == [] {
      InsideIsNotBack(s, t, g, call);
      m := s;
    } else {
      StepStage(s, es[0], t, g, call);
      StepKeeps(s, es[0]);
      var next := Step(s, es[0]);
      if Stage(next, t, g, call) {
        NotLiveIsLast(next, es[1..], t);
        m := RunToResult(next, es[1..], t, g, call);
        assert es[..|es| - 1][1..] == es[1..][..|es| - 2];
      } else {
        ResultIsBack(s, next, call);
        assert es[1..] == [];
        m := s;
        assert es[..0] == [];
      }
    }
  }

  lemma NotLiveIsLast(s: Sys, es: seq<Event>, t: Tid)
    requires Possible(s, es) && FirstBack(s, es, t)
    ensures s.status == Live
  {
  }

  // ---------- The mask ----------

  lemma {:induction false} NoMaskInside(s: Sys, es: seq<Event>, t: Tid)
    requires Possible(s, es) && FirstBack(s, es, t)
    ensures LeavesMask(s, es, t)
    decreases |es|
  {
    if es != [] {
      NoMaskInside(Step(s, es[0]), es[1..], t);
    }
  }

  /** Whatever the caller has called, the first time it is back it has its own mask. */
  lemma CallGivesMaskBack(s: Sys, e: Event, es: seq<Event>)
    requires Reachable(s) && Enabled(s, e) && s.ctl[s.running] == [] && !e.SetMask?
    requires Possible(Step(s, e), es) && FirstBack(Step(s, e), es, s.running)
    requires Run(Step(s, e), es).gen[s.running] == s.gen[s.running]
    ensures Run(Step(s, e), es).mask == s.mask
  {
    hide Reachable, Enabled, Step;
    NoMaskInside(Step(s, e), es, s.running);
    LastIsBack(Step(s, e), es, s.running);
    var all := [e] + es;
    assert all[1..] == es;
    assert Possible(s, all) && Run(s, all) == Run(Step(s, e), es) && LeavesMask(s, all, s.running);
    MaskIsGivenBack(s, all, s.running);
  }

  lemma {:induction false} LastIsBack(s: Sys, es: seq<Event>, t: Tid)
    requires Possible(s, es) && FirstBack(s, es, t)
    ensures Back(Run(s, es), t)
    decreases |es|
  {
    if es != [] {
      LastIsBack(Step(s, es[0]), es[1..], t);
    }
  }

  // ---------- lock_acquire ----------

  lemma AcquireEnters(s: Sys, lock: nat)
    requires Reachable(s) && Enabled(s, Acquire(lock)) && s.locks[lock].acquired
    ensures var k := Step(s, Acquire(lock));
            k.status == Live && Stage(k, s.running, s.gen[s.running], Acquiring(lock))
  {
    hide Reachable, AcquireTurn, Result, Inside, Turned;
    CallerInNone(s);
    var m := s.(mask := false);
    TurnInside(s, m, Acquiring(lock), lock, s.mask);
    TurnTurns(m, lock, s.mask);
    TakenIsNotBack(s, lock);
  }

  lemma TakenIsNotBack(s: Sys, lock: nat)
    requires Reachable(s) && Enabled(s, Acquire(lock)) && s.locks[lock].acquired
    ensures var k := AcquireTurn(s.(mask := false), lock, s.mask); k.status == Live && !Result(Acquiring(lock), s, k)
  {
    hide Reachable, AcquireTurn;
    AcquireReturnsWithLock(s, lock);
    AcquireDoes(s, lock);
  }

  /** A step from a reachable state that is not the last one keeps the invariant. */
  lemma NextInv(s: Sys, e: Event)
    requires Reachable(s) && Enabled(s, e) && Step(s, e).status == Live
    ensures Inv(Step(s, e))
  {
    hide Reachable, Inv, Enabled, Step;
    ReachableInv(s);
    StepKeeps(s, e);
  }

  /** The caller runs, and is in no queue. */
  ghost predicate InNone(s: Sys) {
    && s.status == Live && s.state[s.running] == Running
    && s.running !in s.ready && forall q :: s.running !in At(s.wait, q)
  }

  lemma CallerInNone(s: Sys)
    requires Reachable(s) && s.ctl[s.running] == []
    ensures InNone(s)
  {
    hide Reachable, Placed, Slots;
    CallerRuns(s);
    NotInOwnQueue(s);
  }

  /**
   On every run, when lock_acquire has returned, its caller holds the lock, the
   lock names it, and interrupts are as they were, however often it had to sleep.
   */
  lemma AcquireReturnsHolding(s: Sys, lock: nat, es: seq<Event>)
    requires Reachable(s) && Enabled(s, Acquire(lock))
    requires Possible(Step(s, Acquire(lock)), es) && FirstBack(Step(s, Acquire(lock)), es, s.running)
    requires Run(Step(s, Acquire(lock)), es).gen[s.running] == s.gen[s.running]
    ensures var r := Run(Step(s, Acquire(lock)), es);
            && lock in r.held[s.running] && lock in r.locks && r.locks[lock] == Lock(true, s.running)
            && r.mask == s.mask
  {
    hide Reachable, Stage, Inv;
    CallGivesMaskBack(s, Acquire(lock), es);
    if s.locks[lock].acquired {
      AcquireEnters(s, lock);
      NextInv(s, Acquire(lock));
      var m := RunToResult(Step(s, Acquire(lock)), es, s.running, s.gen[s.running], Acquiring(lock));
    } else {
      AcquireReturnsWithLock(s, lock);
      AcquireDoes(s, lock);
    }
  }

  /**
   On every run, as long as lock_acquire has not returned, its caller sleeps in
   the queue of that lock, or not at all.
   */
  lemma AcquireSleepsInItsQueue(s: Sys, lock: nat, es: seq<Event>)
    requires Reachable(s) && Enabled(s, Acquire(lock))
    requires Possible(Step(s, Acquire(lock)), es) && NeverBack(Step(s, Acquire(lock)), es, s.running)
    ensures var r := Run(Step(s, Acquire(lock)), es);
            r.status == Live && r.gen[s.running] == s.gen[s.running] && r.state[s.running] == Sleeping ==>
              s.running in At(r.wait, LockQueue(lock))
  {
    hide Reachable, Inv;
    var k := Step(s, Acquire(lock));
    NeverBackAtFirst(k, es, s.running);
    AcquireReturnsWithLock(s, lock);
    AcquireDoes(s, lock);
    assert s.locks[lock].acquired;
    AcquireEnters(s, lock);
    NextInv(s, Acquire(lock));
    RunStage(k, es, s.running, s.gen[s.running], Acquiring(lock));
    var r := Run(k, es);
    if r.status == Live && r.gen[s.running] == s.gen[s.running] && r.state[s.running] == Sleeping {
      KeepsThroughRun(k, es);
      var q := SleepersQueue(r, s.running);
      SleepsWhereItShould(r, s.running, s.gen[s.running], Acquiring(lock), q);
    }
  }

  lemma NeverBackAtFirst(s: Sys, es: seq<Event>, t: Tid)
    requires Possible(s, es) && NeverBack(s, es, t)
    ensures !Back(s, t)
  {
  }

  lemma SleepersQueue(s: Sys, t: Tid) returns (q: WaitQueue)
    requires Inv(s) && s.state[t] == Sleeping
    ensures t in At(s.wait, q)
  {
    var at := PlacesOf(s);
    assert Fits(s.state[t], at[t]);
    q := at[t].queue;
  }

  lemma SleepsWhereItShould(s: Sys, t: Tid, g: nat, call: Call, q: WaitQueue)
    requires Inv(s) && Stage(s, t, g, call) && s.gen[t] == g && s.state[t] == Sleeping && t in At(s.wait, q)
    ensures s.ctl[t] != [] && SleepsIn(call, s.ctl[t][0], q)
  {
    hide Inv;
    SleeperIsNotRunning(s, t);
  }

  lemma SleeperIsNotRunning(s: Sys, t: Tid)
    requires Inv(s) && s.state[t] == Sleeping
    ensures s.running != t
  {
  }

  // ---------- cv_wait ----------

  lemma CvWaitEnters(s: Sys, cv: nat, lock: nat)
    requires Reachable(s) && Enabled(s, WaitOnCv(cv, lock)) && Owns(s, lock)
    ensures var k := Step(s, WaitOnCv(cv, lock));
            k.status == Live && Stage(k, s.running, s.gen[s.running], InCvWait(cv, lock))
  {
    hide Reachable;
    CallerInNone(s);
    assert [] + [CvRelease(cv, lock)] == [CvRelease(cv, lock)];
  }

  /**
   On every run, when cv_wait has returned, its caller holds the lock again, the
   lock names it, and interrupts are as they were; with or without a signal.
   */
  lemma CvWaitReturnsHolding(s: Sys, cv: nat, lock: nat, es: seq<Event>)
    requires Reachable(s) && Enabled(s, WaitOnCv(cv, lock)) && Owns(s, lock)
    requires Possible(Step(s, WaitOnCv(cv, lock)), es) && FirstBack(Step(s, WaitOnCv(cv, lock)), es, s.running)
    requires Run(Step(s, WaitOnCv(cv, lock)), es).gen[s.running] == s.gen[s.running]
    ensures var r := Run(Step(s, WaitOnCv(cv, lock)), es);
            && lock in r.held[s.running] && lock in r.locks && r.locks[lock] == Lock(true, s.running)
            && r.mask == s.mask
  {
    hide Reachable, Stage, Inv;
    CallGivesMaskBack(s, WaitOnCv(cv, lock), es);
    CvWaitEnters(s, cv, lock);
    NextInv(s, WaitOnCv(cv, lock));
    var m := RunToResult(Step(s, WaitOnCv(cv, lock)), es, s.running, s.gen[s.running], InCvWait(cv, lock));
  }

  /**
   On every run, as long as cv_wait has not returned, its caller sleeps in the
   queue of the condition variable, in that of the lock, or not at all.
   */
  lemma CvWaitSleepsInItsQueues(s: Sys, cv: nat, lock: nat, es: seq<Event>)
    requires Reachable(s) && Enabled(s, WaitOnCv(cv, lock)) && Owns(s, lock)
    requires Possible(Step(s, WaitOnCv(cv, lock)), es) && NeverBack(Step(s, WaitOnCv(cv, lock)), es, s.running)
    ensures var r := Run(Step(s, WaitOnCv(cv, lock)), es);
            r.status == Live && r.gen[s.running] == s.gen[s.running] && r.state[s.running] == Sleeping ==>
              s.running in At(r.wait, CvQueue(cv)) || s.running in At(r.wait, LockQueue(lock))
  {
    hide Reachable, Inv;
    CvWaitEnters(s, cv, lock);
    NextInv(s, WaitOnCv(cv, lock));
    var k := Step(s, WaitOnCv(cv, lock));
    RunStage(k, es, s.running, s.gen[s.running], InCvWait(cv, lock));
    var r := Run(k, es);
    if r.status == Live && r.gen[s.running] == s.gen[s.running] && r.state[s.running] == Sleeping {
      KeepsThroughRun(k, es);
      var q := SleepersQueue(r, s.running);
      SleepsWhereItShould(r, s.running, s.gen[s.running], InCvWait(cv, lock), q);
    }
  }

  /** In no state of the run does `t` sleep on the condition variable, or run with nobody else ready. */
  ghost predicate NeverSleeps(s: Sys, es: seq<Event>, t: Tid, cv: nat)
    requires Possible(s, es)
    decreases |es|
  {
    && t !in At(s.wait, CvQueue(cv)) && !(s.running == t && s.ready == [])
    && (es == [] || NeverSleeps(Step(s, es[0]), es[1..], t, cv))
  }

  lemma SleepQueues(s: Sys, cv: nat, lock: nat)
    requires s.status == Live && s.ctl[s.running] == [CvSleep(cv, lock)] && s.ready != [] && s.running !in s.ready
    ensures CanResume(s) && s.running in At(Resume(s).wait, CvQueue(cv))
  {
    hide Block;
    var m := Push(Pop(s), CvAcquire(lock));
    assert Resume(s) == ThreadSleep(m, Some(CvQueue(cv)));
    BlockTakesOver(m, CvQueue(cv));
  }

  /** The thread's own step before its sleep on the condition variable. */
  lemma OwnStepEarly(s: Sys, e: Event, t: Tid, g: nat, cv: nat, lock: nat)
    requires Inv(s) && Enabled(s, e) && s.running == t && Stage(s, t, g, BeforeSleep(cv, lock)) && s.ready != []
    ensures Stage(Step(s, e), t, g, BeforeSleep(cv, lock)) || t in At(Step(s, e).wait, CvQueue(cv))
  {
    var call := BeforeSleep(cv, lock);
    if Doomed(s, t, g) {
      StepDoomed(s, e, t, g);
    } else {
      StageRunner(s, t, g, call);
      OnlyTimerOrContinue(s, e);
      assert Placed(s);
      hide Inv, Placed, Stage, Doomed, Interrupt, Resume, Inside, StillInside;
      if e.TimerInterrupt? {
        InterruptedInside(s, call);
      } else if |s.ctl[t]| > 1 {
        AboveReturns(s, call);
      } else {
        BaseIsEarly(s, cv, lock);
        if Top(s).CvRelease? {
          ReleaseInside(s, cv, lock);
        } else {
          SleepQueues(s, cv, lock);
        }
      }
    }
  }

  lemma BaseIsEarly(s: Sys, cv: nat, lock: nat)
    requires |s.ctl[s.running]| == 1 && Inside(BeforeSleep(cv, lock), s.ctl[s.running])
    ensures s.ctl[s.running] == [CvRelease(cv, lock)] || s.ctl[s.running] == [CvSleep(cv, lock)]
  {
  }

  lemma {:induction false} RunEarly(s: Sys, es: seq<Event>, t: Tid, g: nat, cv: nat, lock: nat)
    requires (s.status == Live ==> Inv(s)) && Possible(s, es) && Stage(s, t, g, BeforeSleep(cv, lock))
    requires NeverSleeps(s, es, t, cv)
    ensures Stage(Run(s, es), t, g, BeforeSleep(cv, lock))
    decreases |es|
  {
    hide Inv, Step, Stage;
    if es != [] {
      StepKeeps(s, es[0]);
      if s.running == t {
        OwnStepEarly(s, es[0], t, g, cv, lock);
      } else {
        OtherStage(s, es[0], t, g, BeforeSleep(cv, lock));
      }
      RunEarly(Step(s, es[0]), es[1..], t, g, cv, lock);
    }
  }

  lemma EntersEarly(s: Sys, cv: nat, lock: nat)
    requires Reachable(s) && Enabled(s, WaitOnCv(cv, lock)) && Owns(s, lock)
    ensures var k := Step(s, WaitOnCv(cv, lock));
            k.status == Live && Stage(k, s.running, s.gen[s.running], BeforeSleep(cv, lock))
  {
    hide Reachable;
    CallerInNone(s);
    assert [] + [CvRelease(cv, lock)] == [CvRelease(cv, lock)];
  }

  /**
   On every run, cv_wait comes back only after its caller has slept in the queue
   of the condition variable, or has run in it with no other thread ready.
   */
  lemma CvWaitSleepsFirst(s: Sys, cv: nat, lock: nat, es: seq<Event>)
    requires Reachable(s) && Enabled(s, WaitOnCv(cv, lock)) && Owns(s, lock)
    requires Possible(Step(s, WaitOnCv(cv, lock)), es) && FirstBack(Step(s, WaitOnCv(cv, lock)), es, s.running)
    requires Run(Step(s, WaitOnCv(cv, lock)), es).gen[s.running] == s.gen[s.running]
    ensures !NeverSleeps(Step(s, WaitOnCv(cv, lock)), es, s.running, cv)
  {
    hide Reachable, Inv, Stage;
    var k := Step(s, WaitOnCv(cv, lock));
    EntersEarly(s, cv, lock);
    NextInv(s, WaitOnCv(cv, lock));
    LastIsBack(k, es, s.running);
    KeepsThroughRun(k, es);
    if NeverSleeps(k, es, s.running, cv) {
      RunEarly(k, es, s.running, s.gen[s.running], cv, lock);
      InsideIsNotBack(Run(k, es), s.running, s.gen[s.running], BeforeSleep(cv, lock));
    }
  }

  // ---------- cv_signal and cv_broadcast ----------

  lemma CvWakeEnters(s: Sys, cv: nat, lock: nat, all: int)
    requires Reachable(s) && s.ctl[s.running] == [] && lock in s.locks && Owns(s, lock)
    ensures var k := CvWake(s, cv, lock, all);
            k.status == Live && Stage(k, s.running, s.gen[s.running], Waking(cv, all))
  {
    CallerInNone(s);
    hide Reachable;
    assert [] + [CvWakeup(cv, all)] == [CvWakeup(cv, all)];
  }

  /**
   On every run, whatever comes between, cv_signal returns by a step that makes
   the first sleeper of that moment ready, and cv_broadcast by one that makes
   all of them ready, in order; nobody else is woken.
   */
  lemma CvWakeReturns(s: Sys, e: Event, cv: nat, lock: nat, es: seq<Event>) returns (m: Sys)
    requires Reachable(s) && Enabled(s, e) && (e == SignalCv(cv, lock) || e == BroadcastCv(cv, lock)) && Owns(s, lock)
    requires Possible(Step(s, e), es) && FirstBack(Step(s, e), es, s.running)
    requires Run(Step(s, e), es).gen[s.running] == s.gen[s.running]
    ensures es != [] && Possible(Step(s, e), es[..|es| - 1]) && m == Run(Step(s, e), es[..|es| - 1])
    ensures var r := Run(Step(s, e), es);
            var w := At(m.wait, CvQueue(cv));
            var k := if e.BroadcastCv? then |w| else if w == [] then 0 else 1;
            && m.running == s.running && r.mask == s.mask
            && r.ready == m.ready + w[..k] && OnlyQueue(m, r, CvQueue(cv), w[k..]) && OnlyWoken(m, r, w[..k])
  {
    var all := if e.BroadcastCv? then 1 else 0;
    hide Reachable, Stage, Inv, OnlyQueue, OnlyWoken;
    CallGivesMaskBack(s, e, es);
    CvWakeEnters(s, cv, lock, all);
    NextInv(s, e);
    m := RunToResult(Step(s, e), es, s.running, s.gen[s.running], Waking(cv, all));
  }
}
