/** Every step as local work of the running thread and at most one dispatch; what each does to every thread. */
module ThreadProgress {
  import opened Sequences
  import opened ThreadSystem
  import opened ThreadPlaces
  import opened ThreadInvariants
  import opened ThreadSteps

  // ---------- Every step is local work followed by at most one dispatch ----------

  /** The thread that called lock_acquire has to sleep. */
  predicate MustWait(s: Sys, lock: nat) {
    lock in s.locks && s.locks[lock].acquired && s.ready != []
  }

  function Queueing(s: Sys, lock: nat, prev: bool): Sys {
    Asleep(Push(s, AcquireLoop(lock, prev)), LockQueue(lock))
  }

  /** The state in which a resumed thread calls thread_yield(THREAD_ANY), if it does. */
  function ResumeUntilYield(s: Sys): Option<Sys>
    requires CanResume(s)
  {
    match Top(s)
    case AcquireLoop(lock, prev) => if MustWait(s, lock) then Some(Queueing(Pop(s), lock, prev)) else None
    case CvAcquire(lock) => if MustWait(s, lock) then Some(Queueing(Pop(s).(mask := false), lock, s.mask)) else None
    case CvSleep(cv, lock) =>
      if s.ready != [] then Some(Asleep(Push(Pop(s), CvAcquire(lock)), CvQueue(cv))) else None
    case ExitYield => Some(Push(Pop(s), ExitAssert))
    case _ => None
  }

  /** The state in which a step calls thread_yield(THREAD_ANY), if it does. */
  function UntilYield(s: Sys, e: Event): Option<Sys>
    requires Enabled(s, e)
  {
    match e
    case Yield(want) => if want == THREAD_ANY then Some(s) else None
    case Sleep(queue) => if queue.Some? && s.ready != [] then Some(Asleep(s, queue.value)) else None
    case Wait(tid) =>
      if IsTid(tid) && s.state[tid] != NotInitialized && tid != s.running && s.ready != [] then
        Some(Asleep(Push(s, WaitResume(s.mask, tid)).(mask := false), ThreadQueue(tid)))
      else None
    case Acquire(lock) => if MustWait(s, lock) then Some(Queueing(s.(mask := false), lock, s.mask)) else None
    case TimerInterrupt => Some(Push(s, HandlerResume(s.ret[s.running])).(mask := false))
    case Continue => ResumeUntilYield(s)
    case _ => None
  }

  /** A step that calls thread_yield(THREAD_ANY) does nothing behind it. */
  lemma ResumeEndsInYield(s: Sys)
    requires CanResume(s) && ResumeUntilYield(s).Some?
    ensures Resume(s) == YieldAny(ResumeUntilYield(s).value)
  {
    match Top(s) {
      case AcquireLoop(_, _) =>
      case CvAcquire(_) =>
      case CvSleep(_, _) =>
      case ExitYield =>
    }
  }

  lemma StepEndsInYield(s: Sys, e: Event)
    requires Enabled(s, e) && UntilYield(s, e).Some?
    ensures Step(s, e) == YieldAny(UntilYield(s, e).value)
  {
    match e {
      case Yield(_) =>
      case Sleep(_) =>
      case Wait(_) =>
      case Acquire(_) =>
      case TimerInterrupt =>
      case Continue => ResumeEndsInYield(s);
    }
  }

  /** What a call may make of the state of a thread other than the caller. */
  predicate MayBecome(x: ThreadState, y: ThreadState) {
    match x
    case NotInitialized => y == NotInitialized
    case Exited => y == Exited || y == NotInitialized
    case Killed => y == Killed
    case Running => y == Running || y == Killed
    case Ready => y == Ready || y == Killed
    case Sleeping => y == Sleeping || y == Ready || y == Killed
  }

  /** A slot given to a new thread, or the same thread, at most marked, woken or reclaimed. */
  predicate Carried(s: Sys, m: Sys, t: Tid) {
    if m.gen[t] == s.gen[t] then
      && MayBecome(s.state[t], m.state[t])
      && m.ctl[t] == s.ctl[t] && m.stack[t] == s.stack[t] && m.userMask[t] == s.userMask[t] && m.held[t] == s.held[t]
    else
      m.gen[t] > s.gen[t] && s.state[t] in {NotInitialized, Exited}
  }

  /** The caller keeps its slot, its stack and its user code's mask. */
  predicate KeepsSelf(s: Sys, m: Sys) {
    && m.running == s.running
    && m.gen[s.running] == s.gen[s.running]
    && m.stack[s.running] == s.stack[s.running]
    && m.userMask[s.running] == s.userMask[s.running]
    && (Used(s.state[s.running]) ==> Used(m.state[s.running]))
  }

  /** What a call leaves of the threads: nobody is dispatched, and nobody loses a place in the ready queue. */
  ghost predicate Local(s: Sys, m: Sys) {
    && KeepsSelf(s, m) && m.picks == s.picks && s.ready <= m.ready
    && forall t: Tid :: t != s.running ==> Carried(s, m, t)
  }

  lemma LocalChain(s: Sys, m: Sys, r: Sys)
    requires Local(s, m) && Local(m, r)
    ensures Local(s, r)
  {
    forall t: Tid | t != s.running ensures Carried(s, r, t) {
      assert Carried(s, m, t) && Carried(m, r, t);
    }
  }

  lemma CleanupLocal(s: Sys)
    requires s.state[s.running] == Running
    ensures Local(s, Cleanup(s)) && Cleanup(s).gen == s.gen
    ensures Cleanup(s).ctl == s.ctl && Cleanup(s).state[s.running] == Running
  {
    if s.cleanup {
    } else {
    }
  }

  lemma WakeLocal(s: Sys, q: WaitQueue, all: int)
    ensures Local(s, Wake(s, q, all)) && Wake(s, q, all).gen == s.gen && Wake(s, q, all).ctl == s.ctl
    ensures s.state[s.running] == Exited ==> Wake(s, q, all).state[s.running] == Exited
  {
    if WakeCount(s, q, all) == 0 {
    } else {
    }
  }

  /** Only the running thread's own slot changes, and its own place in the wait queues. */
  ghost predicate OwnSlot(s: Sys, m: Sys) {
    && KeepsSelf(s, m) && m.picks == s.picks && m.ready == s.ready && m.gen == s.gen && m.stack == s.stack
    && m.userMask == s.userMask
    && forall t: Tid :: t != s.running ==> m.state[t] == s.state[t] && m.ctl[t] == s.ctl[t] && m.held[t] == s.held[t]
  }

  lemma PushOwnSlot(s: Sys, f: Frame, mask: bool)
    ensures OwnSlot(s, Push(s, f).(mask := mask))
  {
  }

  lemma AsleepOwnSlot(s: Sys, m: Sys, q: WaitQueue)
    requires OwnSlot(s, m)
    ensures OwnSlot(s, Asleep(m, q))
  {
  }

  lemma QueueingOwnSlot(s: Sys, m: Sys, lock: nat, prev: bool)
    requires OwnSlot(s, m)
    ensures OwnSlot(s, Queueing(m, lock, prev))
  {
    PushOwnSlot(m, AcquireLoop(lock, prev), m.mask);
    AsleepOwnSlot(s, Push(m, AcquireLoop(lock, prev)), LockQueue(lock));
  }

  lemma PopOwnSlot(s: Sys, mask: bool)
    requires s.ctl[s.running] != []
    ensures OwnSlot(s, Pop(s).(mask := mask))
  {
  }

  lemma CvSleepOwnSlot(s: Sys, cv: nat, lock: nat)
    requires s.ctl[s.running] != []
    ensures OwnSlot(s, Asleep(Push(Pop(s), CvAcquire(lock)), CvQueue(cv)))
  {
    var m := Push(Pop(s), CvAcquire(lock));
    assert OwnSlot(s, m);
    AsleepOwnSlot(s, m, CvQueue(cv));
  }

  lemma ExitYieldOwnSlot(s: Sys)
    requires s.ctl[s.running] != []
    ensures OwnSlot(s, Push(Pop(s), ExitAssert))
  {
  }

  lemma ResumeOwnSlot(s: Sys)
    requires CanResume(s) && ResumeUntilYield(s).Some?
    ensures OwnSlot(s, ResumeUntilYield(s).value)
  {
    match Top(s) {
      case AcquireLoop(lock, prev) =>
        PopOwnSlot(s, s.mask);
        QueueingOwnSlot(s, Pop(s), lock, prev);
      case CvAcquire(lock) =>
        PopOwnSlot(s, false);
        QueueingOwnSlot(s, Pop(s).(mask := false), lock, s.mask);
      case CvSleep(cv, lock) => CvSleepOwnSlot(s, cv, lock);
      case ExitYield => ExitYieldOwnSlot(s);
    }
  }

  lemma UntilYieldOwnSlot(s: Sys, e: Event)
    requires Enabled(s, e) && UntilYield(s, e).Some?
    ensures OwnSlot(s, UntilYield(s, e).value)
  {
    match e {
      case Sleep(queue) => AsleepOwnSlot(s, s, queue.value);
      case Wait(tid) =>
        PushOwnSlot(s, WaitResume(s.mask, tid), false);
        AsleepOwnSlot(s, Push(s, WaitResume(s.mask, tid)).(mask := false), ThreadQueue(tid));
      case Acquire(lock) => QueueingOwnSlot(s, s.(mask := false), lock, s.mask);
      case TimerInterrupt => PushOwnSlot(s, HandlerResume(s.ret[s.running]), false);
      case Continue => ResumeOwnSlot(s);
      case _ =>
    }
  }

  // ---------- Steps that do not dispatch ----------

  lemma OwnSlotLocal(s: Sys, m: Sys)
    requires OwnSlot(s, m)
    ensures Local(s, m)
  {
  }

  lemma CreatedLocal(s: Sys, t: Tid, a: Addr, value: int)
    requires t != s.running && s.state[t] == NotInitialized
    ensures Local(s, Return(Created(s, t, a), value))
  {
    var r := Return(Created(s, t, a), value);
    forall u: Tid | u != s.running ensures Carried(s, r, u) {
      if u == t {
        assert r.gen[t] > s.gen[t];
      } else {
      }
    }
  }

  lemma ReturnLocal(s: Sys, value: int)
    ensures Local(s, Return(s, value))
  {
  }

  lemma CreateLocal(s: Sys, memory: Option<Addr>)
    requires s.state[s.running] == Running
    ensures Local(s, ThreadCreate(s, memory))
  {
    CleanupLocal(s);
    var c := Cleanup(s);
    FirstFreeBound(c.state, 0);
    var i := FirstFree(c.state, 0);
    if i == 1024 {
      ReturnLocal(c, THREAD_NOMORE);
      LocalChain(s, c, Return(c, THREAD_NOMORE));
    } else if memory.None? {
      ReturnLocal(c, THREAD_NOMEMORY);
      LocalChain(s, c, Return(c, THREAD_NOMEMORY));
    } else {
      CreatedLocal(c, i, memory.value, i);
      LocalChain(s, c, Return(Created(c, i, memory.value), i));
    }
  }

  lemma MarkedLocal(s: Sys, t: Tid)
    requires t != s.running && s.state[t] != Exited && s.state[t] != NotInitialized
    ensures Local(s, Return(Marked(s, t), t))
  {
    var r := Return(Marked(s, t), t);
    forall u: Tid | u != s.running ensures Carried(s, r, u) {
      if u == t {
      } else {
      }
    }
  }

  lemma KillLocal(s: Sys, tid: int)
    requires s.state[s.running] == Running && Slots(s)
    ensures Local(s, ThreadKill(s, tid))
  {
    CleanupLocal(s);
    CleanupSlots(s);
    var c := Cleanup(s);
    if IsTid(tid) && tid != s.running && c.state[tid] != NotInitialized {
      MarkedLocal(c, tid);
      LocalChain(s, c, Return(Marked(c, tid), tid));
    } else {
      ReturnLocal(c, THREAD_INVALID);
      LocalChain(s, c, Return(c, THREAD_INVALID));
    }
  }

  lemma DyingLocal(s: Sys)
    requires s.state[s.running] == Running
    ensures Local(s, Dying(s)) && Dying(s).gen == s.gen && Dying(s).state[s.running] == Exited
  {
    CleanupLocal(s);
    var c := Cleanup(s);
    assert Local(c, Dying(s));
    LocalChain(s, c, Dying(s));
  }

  lemma PushLocal(s: Sys, f: Frame)
    ensures Local(s, Push(s, f))
  {
  }

  lemma ExitLocal(s: Sys)
    requires s.state[s.running] == Running
    ensures Local(s, ThreadExit(s)) && ThreadExit(s).gen == s.gen
    ensures ThreadExit(s).state[s.running] == Exited
  {
    DyingLocal(s);
    var dead := Dying(s);
    var done := Wake(dead, ThreadQueue(s.running), 1);
    WakeLocal(dead, ThreadQueue(s.running), 1);
    LocalChain(s, dead, done);
    if done.ready == [] {
    } else {
      PushLocal(done, ExitYield);
      LocalChain(s, done, Push(done, ExitYield));
    }
  }

  lemma UnlockedLocal(s: Sys, lock: nat)
    requires lock in s.locks
    ensures Local(s, Unlocked(s, lock))
  {
  }

  lemma ReleaseLocal(s: Sys, lock: nat)
    requires lock in s.locks
    ensures Local(s, LockRelease(s, lock))
  {
    if Owns(s, lock) {
      WakeLocal(Unlocked(s, lock), LockQueue(lock), 1);
      UnlockedLocal(s, lock);
      LocalChain(s, Unlocked(s, lock), LockRelease(s, lock));
    } else {
    }
  }

  lemma TurnOwnSlot(s: Sys, lock: nat, prev: bool)
    requires lock in s.locks && !MustWait(s, lock)
    ensures OwnSlot(s, AcquireTurn(s, lock, prev))
  {
    if s.locks[lock].acquired {
    } else {
    }
  }

  lemma RefusedCallLocal(s: Sys, e: Event)
    requires Enabled(s, e) && UntilYield(s, e).None? && (e.Sleep? || e.Wait?)
    ensures OwnSlot(s, Step(s, e))
  {
    if e.Wait? {
      assert Step(s, e) == Return(s, THREAD_INVALID) || Step(s, e) == Return(s, e.target);
    } else {
      assert Step(s, e) == Return(s, THREAD_INVALID) || Step(s, e) == Return(s, THREAD_NONE);
    }
  }

  lemma LockLifeOwnSlot(s: Sys, lock: nat)
    ensures OwnSlot(s, s.(locks := s.locks[lock := Lock(false, THREAD_NONE)]))
    ensures lock in s.locks ==> OwnSlot(s, LockDestroy(s, lock))
  {
    if lock in s.locks && (s.locks[lock].acquired || At(s.wait, LockQueue(lock)) != []) {
    } else {
    }
  }

  lemma CvWaitOwnSlot(s: Sys, cv: nat, lock: nat)
    requires lock in s.locks
    ensures OwnSlot(s, CvWait(s, cv, lock))
  {
    if Owns(s, lock) {
    } else {
    }
  }

  /** Calls that leave every slot as it is, but for their return value. */
  lemma PlainCallLocal(s: Sys, e: Event)
    requires Enabled(s, e) && UntilYield(s, e).None?
    requires e.Sleep? || e.Wait? || e.CreateLock? || e.DestroyLock? || e.Acquire?
             || e.WaitOnCv? || e.SignalCv? || e.BroadcastCv? || e.DestroyCv?
    ensures OwnSlot(s, Step(s, e))
  {
    match e {
      case Acquire(lock) => TurnOwnSlot(s.(mask := false), lock, s.mask);
      case Wait(_) => RefusedCallLocal(s, e);
      case Sleep(_) => RefusedCallLocal(s, e);
      case CreateLock(lock) => LockLifeOwnSlot(s, lock);
      case DestroyLock(lock) => LockLifeOwnSlot(s, lock);
      case WaitOnCv(cv, lock) => CvWaitOwnSlot(s, cv, lock);
      case SignalCv(cv, lock) => CvWakeOwnSlot(s, cv, lock, 0);
      case BroadcastCv(cv, lock) => CvWakeOwnSlot(s, cv, lock, 1);
      case DestroyCv(_) =>
    }
  }

  lemma WakeupLocal(s: Sys, queue: Option<WaitQueue>, all: int)
    ensures Local(s, ThreadWakeup(s, queue, all))
  {
    if queue.Some? {
      WakeLocal(s, queue.value, all);
      LocalChain(s, Wake(s, queue.value, all), ThreadWakeup(s, queue, all));
    } else {
    }
  }

  lemma CvWakeOwnSlot(s: Sys, cv: nat, lock: nat, all: int)
    requires lock in s.locks
    ensures OwnSlot(s, CvWake(s, cv, lock, all))
  {
    if Owns(s, lock) {
      PushOwnSlot(s, CvWakeup(cv, all), s.mask);
    } else {
    }
  }

  lemma CallLocal(s: Sys, e: Event)
    requires Inv(s) && Enabled(s, e) && UntilYield(s, e).None? && !e.Yield? && !e.Continue? && !e.SetMask?
    ensures Local(s, Step(s, e))
  {
    assert !e.TimerInterrupt? ==> s.state[s.running] == Running;
    if e.Create? {
      CreateLocal(s, e.memory);
    } else if e.Kill? {
      KillLocal(s, e.victim);
    } else if e.Exit? {
      ExitLocal(s);
    } else if e.Release? {
      ReleaseLocal(s, e.lock);
    } else if e.Wakeup? {
      WakeupLocal(s, e.queue, e.all);
    } else {
      PlainCallLocal(s, e);
      OwnSlotLocal(s, Step(s, e));
    }
  }

  lemma CvReleaseLocal(s: Sys)
    requires CanResume(s) && Top(s).CvRelease?
    ensures Local(s, Resume(s))
  {
    PopOwnSlot(s, s.mask);
    OwnSlotLocal(s, Pop(s));
    var lock := Top(s).lock;
    if Owns(s, lock) {
      var m := LockRelease(Pop(s), lock);
      ReleaseLocal(Pop(s), lock);
      LocalChain(s, Pop(s), m);
      PushOwnSlot(m, CvSleep(Top(s).cv, lock), m.mask);
      OwnSlotLocal(m, Resume(s));
      LocalChain(s, m, Resume(s));
    }
  }

  lemma CvWakeupLocal(s: Sys)
    requires CanResume(s) && Top(s).CvWakeup?
    ensures Local(s, Resume(s))
  {
    PopOwnSlot(s, s.mask);
    OwnSlotLocal(s, Pop(s));
    WakeLocal(Pop(s), CvQueue(Top(s).cv), Top(s).all);
    LocalChain(s, Pop(s), Resume(s));
  }

  lemma ExitEntryLocal(s: Sys)
    requires CanResume(s) && Top(s).ExitEntry? && s.state[s.running] == Running
    ensures Local(s, Resume(s))
  {
    PopOwnSlot(s, s.mask);
    OwnSlotLocal(s, Pop(s));
    ExitLocal(Pop(s));
    LocalChain(s, Pop(s), ThreadExit(Pop(s)));
  }

  lemma ReturnOwnSlot(s: Sys, value: int, mask: bool)
    requires s.ctl[s.running] != []
    ensures OwnSlot(s, Return(Pop(s), value).(mask := mask))
    ensures OwnSlot(s, Pop(s).(mask := mask)) && OwnSlot(s, Abort(s))
  {
  }

  /** A frame that calls nothing is left, with some return value and some mask, or fails its assertion. */
  lemma PlainReturns(s: Sys)
    requires CanResume(s) && CallsNothing(Top(s))
    ensures Resume(s) == Abort(s) || Resume(s) == Pop(s).(ret := Resume(s).ret, mask := Resume(s).mask)
  {
    hide AcquireTurn, LockRelease, LockAcquire, ThreadSleep, ThreadExit, YieldAny, Wake, Pop;
    match Top(s) {
      case Stub =>
      case YieldResume(_, _) =>
      case SleepResume(_) =>
      case WaitResume(_, _) =>
      case HandlerResume(_) =>
      case ExitAssert =>
    }
  }

  lemma RefusedSleepOwnSlot(s: Sys)
    requires CanResume(s) && Top(s).CvSleep? && s.ready == []
    ensures OwnSlot(s, Resume(s))
  {
    assert Resume(s) == Return(Push(Pop(s), CvAcquire(Top(s).lock)), THREAD_NONE);
  }

  lemma TakenOwnSlot(s: Sys)
    requires CanResume(s) && (Top(s).AcquireLoop? || Top(s).CvAcquire?) && !MustWait(s, Top(s).lock)
    ensures OwnSlot(s, Resume(s))
  {
    if Top(s).AcquireLoop? {
      PopOwnSlot(s, s.mask);
      TurnOwnSlot(Pop(s), Top(s).lock, Top(s).prev);
    } else {
      PopOwnSlot(s, false);
      TurnOwnSlot(Pop(s).(mask := false), Top(s).lock, s.mask);
    }
  }

  lemma ReturningOwnSlot(s: Sys)
    requires CanResume(s)
    requires CallsNothing(Top(s))
    ensures OwnSlot(s, Resume(s))
  {
    hide AcquireTurn, LockRelease, LockAcquire, ThreadSleep, ThreadExit, YieldAny, Wake, OwnSlot;
    match Top(s) {
      case YieldResume(prev, value) => ReturnOwnSlot(s, value, prev);
      case WaitResume(prev, tid) => ReturnOwnSlot(s, tid, prev);
      case SleepResume(prev) => ReturnOwnSlot(s, 0, prev);
      case HandlerResume(saved) => ReturnOwnSlot(s, saved, true);
      case _ => ReturnOwnSlot(s, 0, true);
    }
  }

  lemma PlainResumeLocal(s: Sys)
    requires CanResume(s) && ResumeUntilYield(s).None?
    requires !Top(s).CvRelease? && !Top(s).CvWakeup? && !Top(s).ExitEntry?
    ensures OwnSlot(s, Resume(s))
  {
    if Top(s).AcquireLoop? || Top(s).CvAcquire? {
      TakenOwnSlot(s);
    } else if Top(s).CvSleep? {
      RefusedSleepOwnSlot(s);
    } else {
      ReturningOwnSlot(s);
    }
  }

  lemma ResumeLocal(s: Sys)
    requires Inv(s) && CanResume(s) && ResumeUntilYield(s).None?
    ensures Local(s, Resume(s))
  {
    if Top(s).CvRelease? {
      CvReleaseLocal(s);
    } else if Top(s).CvWakeup? {
      CvWakeupLocal(s);
    } else if Top(s).ExitEntry? {
      ExitEntryLocal(s);
    } else {
      PlainResumeLocal(s);
      OwnSlotLocal(s, Resume(s));
    }
  }
}
